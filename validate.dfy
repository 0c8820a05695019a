/**
 * The `validate(schema)` middleware: it runs the validator with
 * `abortEarly: false` and either hands the request on or answers 400 with
 * `{ erros: [...] }`, one message per reported detail, in report order.
 * The messages are the validator's English templates with the quoted path
 * label in front.
 */
module ValidateGate {
  import opened Json
  import opened Text
  import opened ListingFields
  import opened ListingSchemas
  import opened SchemaProperties

  /** A path as the validator prints it: `imagens[0]`, `a.b`. */
  function PathText(path: seq<Segment>): string
    decreases |path|
  {
    if path == [] then ""
    else
      var last := path[|path| - 1];
      var front := PathText(path[..|path| - 1]);
      match last
      case Index(i) => front + "[" + NatText(i) + "]"
      case Member(k) => if front == "" then k else front + "." + k
  }

  /** The name a top-level key goes by in a message: the validator falls back to `value` for the empty key. */
  function KeyName(k: string): string
  {
    if k == "" then "value" else k
  }

  /** The label in front of every message: the printed path in double quotes, or `"value"` when it prints as nothing. */
  function Label(path: seq<Segment>): string
  {
    "\"" + (if PathText(path) == "" then "value" else PathText(path)) + "\""
  }

  /** `a, b, c`, as an array renders inside a message. */
  function Listed(xs: seq<string>): string
  {
    if xs == [] then ""
    else if |xs| == 1 then xs[0]
    else xs[0] + ", " + Listed(xs[1..])
  }

  /** The message template of each error code. */
  function Template(code: Code): string
  {
    match code
    case AnyRequired => " is required"
    case AnyOnly(vs) => " must be " + (if |vs| == 1 then "" else "one of ") + "[" + Listed(vs) + "]"
    case ObjectUnknown => " is not allowed"
    case StringBase => " must be a string"
    case StringEmpty => " is not allowed to be empty"
    case StringMin(n) => " length must be at least " + NatText(n) + " characters long"
    case StringMax(n) => " length must be less than or equal to " + NatText(n) + " characters long"
    case StringUri => " must be a valid uri"
    case NumberBase => " must be a number"
    case NumberUnsafe => " must be a safe number"
    case NumberInteger => " must be an integer"
    case NumberMin(n) => " must be greater than or equal to " + NatText(n)
    case BooleanBase => " must be a boolean"
    case ArrayBase => " must be an array"
    case ArrayMin(n) => " must contain at least " + NatText(n) + " items"
    case AlternativesTypes(ts) => " must be one of [" + Listed(ts) + "]"
    case AlternativesMatch => " does not match any of the allowed types"
  }

  function Message(d: Detail): string
  {
    Label(d.path) + Template(d.code)
  }

  /** `error.details.map((err) => err.message)`. */
  function Messages(ds: seq<Detail>): (r: seq<string>)
    ensures |r| == |ds|
    ensures forall i :: 0 <= i < |ds| ==> r[i] == Message(ds[i])
  {
    if ds == [] then [] else [Message(ds[0])] + Messages(ds[1..])
  }

  /** What the middleware does with a request: call the next handler, or answer. */
  datatype GateOutcome = CallNext | Reject(status: nat, erros: seq<string>)

  /** `validate(schema)(req, res, next)`. */
  function Validate(schema: Schema, body: Body, isUri: string -> bool): (r: GateOutcome)
    ensures r.CallNext? <==> Accepts(schema, body, isUri)
    ensures r.Reject? ==> r.status == 400 && r.erros != []
    ensures r.Reject? ==> r.erros == Messages(SchemaErrors(schema, body, isUri))
  {
    SchemaErrorsEmptyIff(schema, body, isUri);
    var details := SchemaErrors(schema, body, isUri);
    if details == [] then CallNext else Reject(400, Messages(details))
  }

  // ---------------------------------------------------------------------
  // What the messages say
  // ---------------------------------------------------------------------

  /** A one-segment path prints as the bare key, or as `value` for the empty key. */
  lemma KeyLabel(k: string)
    ensures Label([Member(k)]) == "\"" + KeyName(k) + "\""
  {
    var path := [Member(k)];
    assert path[..|path| - 1] == [];
    assert path[|path| - 1] == Member(k);
    assert PathText(path) == k;
  }

  /** The printed path starts with its first key. */
  lemma {:induction false} PathTextStartsWithKey(path: seq<Segment>, k: string)
    requires |path| >= 1 && path[0] == Member(k)
    ensures |PathText(path)| >= |k| && PathText(path)[..|k|] == k
    decreases |path|
  {
    if |path| == 1 {
      assert path[..0] == [];
    } else {
      var front := path[..|path| - 1];
      PathTextStartsWithKey(front, k);
      var f := PathText(front);
      assert |f| >= |k| && f[..|k|] == k;
      match path[|path| - 1]
      case Index(i) =>
        assert PathText(path) == f + ("[" + NatText(i) + "]");
      case Member(m) =>
        if f != "" {
          assert PathText(path) == f + ("." + m);
        }
    }
  }

  /**
   * A message opens with the quote and the name of the key the detail is
   * about: the key itself when it is not empty, and `value` for a detail
   * about the empty key alone.
   */
  lemma MessageNamesKey(d: Detail, k: string)
    requires |d.path| >= 1 && d.path[0] == Member(k)
    ensures k != "" || |d.path| == 1 ==>
      |Message(d)| > |KeyName(k)| && Message(d)[..|KeyName(k)| + 1] == "\"" + KeyName(k)
  {
    if k != "" || |d.path| == 1 {
      LabelNamesKey(d.path, k);
      var l := Label(d.path);
      var n := |KeyName(k)| + 1;
      assert Message(d) == l + Template(d.code);
      assert (l + Template(d.code))[..n] == l[..n];
    }
  }

  lemma LabelNamesKey(path: seq<Segment>, k: string)
    requires |path| >= 1 && path[0] == Member(k) && (k != "" || |path| == 1)
    ensures |Label(path)| > |KeyName(k)| && Label(path)[..|KeyName(k)| + 1] == "\"" + KeyName(k)
  {
    if k != "" {
      PathTextStartsWithKey(path, k);
      var p := PathText(path);
      assert Label(path) == "\"" + p + "\"";
      QuotedPrefix(p, k, "\"");
    } else {
      assert path == [Member(k)];
      KeyLabel(k);
      QuotedPrefix("value", "value", "\"");
    }
  }

  lemma QuotedPrefix(p: string, k: string, rest: string)
    requires |p| >= |k| && p[..|k|] == k
    ensures |"\"" + p + rest| > |k| && ("\"" + p + rest)[..|k| + 1] == "\"" + k
  {
    assert ("\"" + p + rest)[..|k| + 1] == "\"" + p[..|k|];
  }

  /** Every reported detail has its message in the refusal. */
  lemma RefusalIncludes(schema: Schema, body: Body, isUri: string -> bool, d: Detail)
    requires d in SchemaErrors(schema, body, isUri)
    ensures Validate(schema, body, isUri).Reject?
    ensures Message(d) in Validate(schema, body, isUri).erros
  {
    var ds := SchemaErrors(schema, body, isUri);
    var n :| 0 <= n < |ds| && ds[n] == d;
    assert Messages(ds)[n] == Message(d);
  }

  /** The message of a one-key detail: the quoted key name, then the template. */
  lemma KeyMessage(k: string, code: Code)
    ensures Message(Detail([Member(k)], code)) == "\"" + KeyName(k) + ("\"" + Template(code))
  {
    KeyLabel(k);
  }

  /** A request with an undeclared key is refused, and the answer names the key (`value` for the empty key). */
  lemma UnknownKeyMessage(schema: Schema, body: Body, isUri: string -> bool, j: nat)
    requires j < |body| && !Declares(schema, body[j].0)
    ensures Validate(schema, body, isUri).Reject?
    ensures "\"" + KeyName(body[j].0) + "\" is not allowed" in Validate(schema, body, isUri).erros
  {
    UnknownReported(schema, body, j);
    RefusalIncludes(schema, body, isUri, Detail([Member(body[j].0)], ObjectUnknown));
    UnknownText(body[j].0);
  }

  lemma UnknownText(k: string)
    ensures Message(Detail([Member(k)], ObjectUnknown)) == "\"" + KeyName(k) + "\" is not allowed"
  {
    KeyMessage(k, ObjectUnknown);
    assert "\"" + Template(ObjectUnknown) == "\" is not allowed";
  }

  lemma RequiredMessage(k: string)
    ensures Message(Detail([Member(k)], AnyRequired)) == "\"" + KeyName(k) + "\" is required"
  {
    KeyMessage(k, AnyRequired);
    assert "\"" + Template(AnyRequired) == "\" is required";
  }

  /** A request lacking a required key is refused, and the answer says the key is required. */
  lemma MissingKeyMessage(schema: Schema, body: Body, isUri: string -> bool, i: nat)
    requires i < |schema| && schema[i].required && Get(body, KeyOf(schema[i].field)).None?
    ensures Validate(schema, body, isUri).Reject?
    ensures "\"" + KeyOf(schema[i].field) + "\" is required" in Validate(schema, body, isUri).erros
  {
    var k := KeyOf(schema[i].field);
    var d := Detail([Member(k)], AnyRequired);
    assert FieldErrors(schema[i], body, isUri) == [d];
    ChildrenReported(schema, body, isUri, i);
    assert d in SchemaErrors(schema, body, isUri);
    RefusalIncludes(schema, body, isUri, d);
    RequiredMessage(k);
  }

  /** Every message of a refusal opens with the quoted name of a key that is declared or present in the body. */
  lemma RefusalNamesKeys(schema: Schema, body: Body, isUri: string -> bool)
    requires Validate(schema, body, isUri).Reject?
    ensures forall m :: m in Validate(schema, body, isUri).erros ==>
      exists k :: (Declares(schema, k) || Get(body, k).Some?) && Opens(m, k)
  {
    var ds := SchemaErrors(schema, body, isUri);
    forall m | m in Validate(schema, body, isUri).erros
      ensures exists k :: (Declares(schema, k) || Get(body, k).Some?) && Opens(m, k)
    {
      var n :| 0 <= n < |ds| && Messages(ds)[n] == m;
      DetailOrigin(schema, body, isUri, ds[n]);
      var k :| (Declares(schema, k) || Get(body, k).Some?) && About(ds[n], k);
      MessageNamesKey(ds[n], k);
    }
  }

  /** The message `m` opens with a quote and the name of the key `k`. */
  predicate Opens(m: string, k: string)
  {
    |m| > |KeyName(k)| && m[..|KeyName(k)| + 1] == "\"" + KeyName(k)
  }

  /** The detail is about the key `k`: its path starts there, and goes no further when `k` is empty. */
  predicate About(d: Detail, k: string)
  {
    |d.path| >= 1 && d.path[0] == Member(k) && (k != "" || |d.path| == 1)
  }

  /** Each reported detail is about a declared key or about a key of the body. */
  lemma DetailOrigin(schema: Schema, body: Body, isUri: string -> bool, d: Detail)
    requires d in SchemaErrors(schema, body, isUri)
    ensures exists k :: (Declares(schema, k) || Get(body, k).Some?) && About(d, k)
  {
    var ds := SchemaErrors(schema, body, isUri);
    if d in ChildrenErrors(schema, body, isUri) {
      var i := ChildOf(schema, body, isUri, d);
      FieldErrorsPath(schema[i], body, isUri);
      assert Declares(schema, KeyOf(schema[i].field));
      assert About(d, KeyOf(schema[i].field));
    } else {
      assert d in UnknownErrors(schema, body);
      var j := UnknownOf(schema, body, d);
      GetSpec(body, body[j].0);
      assert Get(body, body[j].0).Some?;
      assert About(d, body[j].0);
    }
  }

  /** The declared key a child detail comes from. */
  lemma {:induction false} ChildOf(schema: Schema, body: Body, isUri: string -> bool, d: Detail) returns (i: nat)
    requires d in ChildrenErrors(schema, body, isUri)
    ensures i < |schema| && d in FieldErrors(schema[i], body, isUri)
    decreases |schema|
  {
    var head := FieldErrors(schema[0], body, isUri);
    var tail := ChildrenErrors(schema[1..], body, isUri);
    assert ChildrenErrors(schema, body, isUri) == head + tail;
    if d in head {
      i := 0;
    } else {
      assert d in tail;
      var i' := ChildOf(schema[1..], body, isUri, d);
      assert schema[1..][i'] == schema[i' + 1];
      i := i' + 1;
    }
  }

  /** The body member an unknown-key detail comes from. */
  lemma {:induction false} UnknownOf(schema: Schema, members: seq<(string, Value)>, d: Detail) returns (j: nat)
    requires d in UnknownErrors(schema, members)
    ensures j < |members| && d == Detail([Member(members[j].0)], ObjectUnknown)
    decreases |members|
  {
    if d == Detail([Member(members[0].0)], ObjectUnknown) && !Declares(schema, members[0].0) {
      j := 0;
    } else {
      var j' := UnknownOf(schema, members[1..], d);
      j := j' + 1;
    }
  }
}
