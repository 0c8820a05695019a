# Listing and authentication contract of a real-estate backend, in Dafny

The backend is an Express application with these parts:

- a listing resource (`Imovel`) behind five routes;
- a validation middleware built on Joi schemas;
- a bearer-token middleware;
- two authentication routes: registration and login.

This project models the decision logic of those parts and proves what it guarantees.

- **ListingSchemas** (`schemas.dfy`) and **SchemaProperties** (`schema_properties.dfy`) model the two Joi schemas, `createSchemaImovel` and `updateSchemaImovel`.
  - A body is checked as Joi checks it with `abortEarly: false`: declared keys in declaration order, then undeclared keys in body order.
  - Every violation becomes a detail, made of a path and an error code.
  - The lemmas show that each schema accepts exactly the bodies described field by field. That description covers lengths, the closed sets of `tipo` and `finalidade`, the union type of `preco`, nullable `valorCondominio` and the non-empty URI list `imagens`.
  - The create schema accepts only what the update schema accepts, and the empty body separates the two.
- **ValidateGate** (`validate.dfy`) models the `validate(schema)` middleware.
  - It calls `next` exactly when the schema accepts the body.
  - Otherwise it answers 400 with one message per detail, in report order. The messages use Joi's English templates with the quoted path in front.
  - The lemmas show that an unknown key and a missing required key are named in the answer.
- **ListingModel** and **ModelProperties** (`listing_model.dfy`, `model_properties.dfy`) model the Mongoose model `Imovel`.
  - They cover the typed paths, the defaults and the `trim` setter on `titulo`.
  - They cover the validators that `save()` and the update validators run.
  - They cover `toObject()` and `formatarImovel`.
  - The lemmas state:
    - what an accepted body becomes in a document;
    - that the model's enums agree with the schemas';
    - exactly when the model's validators still refuse a body that passed the schema.
- **ListingService** (`listing_store.dfy`) models the five route handlers as methods of a `ListingStore` class.
  - The class holds a map from ObjectId to document and a logical clock.
  - The class invariant is preserved by every method: each document sits under its own id and is valid, and creation ticks are distinct.
  - The list is proved to hold every document once, newest first.
- **TokenAuth** (`auth_token.dfy`) models `autenticarToken`.
  - The token is the second space-separated part of the header.
  - A missing token gives 401 without asking the library; a failed verification gives 403.
  - On success the middleware writes `req.usuario`.
- **AuthService** (`auth_routes.dfy`) models registration as a method of a `UserStore` class and login as a function over the user map. The lemmas state:
  - with a string password, an unknown email and a wrong password get identical answers, while a non-string password tells them apart;
  - a registered user can log in;
  - the login token opens the protected routes for exactly one hour.
- **ListingRoutes** (`listing_routes.dfy`) composes the middleware chains of the three writing routes. A request the token check or the schema refuses never touches the store.

Helper modules: `Wrappers` (Option), `Json` (values and request bodies), `Text` (`trim`, `split`, decimal rendering), `ObjectIds` (24-digit hexadecimal ids) and `ListingFields` (the document's paths).

Bcrypt, the JWT library and URI syntax are parameters of the model:

- A `Bcrypt` value holds the hash and compare functions.
- A `Jwt` value holds the sign and verify functions.
- `isUri` holds the URI check.

What the model relies on from the libraries is stated as the predicates `BcryptSound` and `JwtSound`. The lemmas that need those facts take them as preconditions.

Several things that come from outside are parameters too:

- whether the database answers (`storeUp`);
- the id the driver generates;
- the salt bcrypt draws;
- the current second.

Behaviour of the code worth knowing:

- **Sentinel and enum values.** The price sentinel is the string `CONSULTAR VALOR`. The enum values are Portuguese strings such as `casa` and `venda`.
- **Lengths in code units.** Joi's string bounds count JavaScript's `length`, in UTF-16 code units. A character outside the Basic Multilingual Plane, such as an emoji, counts twice, so a title of two emoji passes the minimum of 3 (`AstralTitleAccepted`).
- **Lengths and trimming.** The schemas count the untrimmed length of `titulo`, but the model stores it trimmed.
  - A title of white space only passes the schema and then fails the model's `required` check. That gives 500 on create and 400 on update (`CreateAcceptedModelValid`, `UpdateAcceptedValidators`).
  - A stored title can be shorter than three characters (`TrimmedTitleShorter`).
- **Update before lookup.** `findByIdAndUpdate` casts the id and runs the update validators before it looks the document up. A malformed id or a refused value therefore gives 400 even when no such document exists; 404 comes only after both have passed. Every failure of the update is answered with 400 and carries the error's message in `detalhes`.
- **Malformed ids elsewhere.** A malformed id on GET and DELETE is a cast error, answered with 500, not 404.
- **401 and 403.** A missing token gives 401 and a bad or expired token gives 403. The two are distinct statuses and messages.
- **Truthiness.** Registration and login reject `email` and `senha` by JavaScript truthiness. An empty string is refused like a missing key.
- **Password type.** The email is looked up before bcrypt sees the password, and bcrypt throws on a password that is not a string. So a numeric password gets 409 on registration for a known email, and on login 401 for an unknown email but 500 for a known one. Such a login tells registered emails from unknown ones, despite the single 401 message meant to hide that (`LoginRevealsKnownEmail`).
- **Unknown keys.** Joi rejects every undeclared key, so `visualizacoes` can never be set by a request.
- **The empty key.** Joi labels a path that prints as nothing with `value`, so a body member with the empty key is answered `"value" is not allowed` (`KeyName`, `UnknownKeyMessage`).
- **`formatarImovel` is unused.** It is defined in the routes file but no route calls it. The routes send the document itself, and it is modelled as written.

## Model

| member | source | states |
|---|---|---|
| Text.Split | middleware/autenticarToken.js:8 | `split(' ')` yields at least one part, no part holds a space, and joining the parts with spaces gives back the header |
| Text.SplitJoin | middleware/autenticarToken.js:8 | splitting parts that hold no space, once joined with spaces, gives back exactly those parts |
| Text.Utf16Length | routes/imoveis.js:17-21 | JavaScript's `length` lies between the number of characters and twice it, and equals it exactly when no character is astral |
| Text.Trim | models/Imovel.js:9 | definition of `String.prototype.trim`, applied by the `trim: true` setter; properties in `TrimShape`, `TrimEnds`, `TrimIdempotent` and `TrimEmptyIff` |
| Text.TrimShape | models/Imovel.js:9 | `trim` removes a run of white space at each end and keeps the inside as it is |
| Text.TrimEnds | models/Imovel.js:9 | a trimmed title neither starts nor ends with white space |
| Text.TrimIdempotent | models/Imovel.js:9 | trimming a trimmed title changes nothing |
| Text.TrimEmptyIff | models/Imovel.js:6-10 | a title trims to the empty string exactly when it is white space only |
| Json.Get | routes/auth.js:13 | `req.body[key]`, undefined when no member has the key; properties in `GetSpec` |
| Json.GetSpec | routes/auth.js:13 | a key is undefined exactly when no member of the body has it, and otherwise its value is that member's |
| Json.Truthy | routes/auth.js:15 | definition of JavaScript truthiness of a JSON value: undefined, `null`, `false`, `0` and `""` are falsy; used by `ReadCredentials` |
| ObjectIds.CastObjectId | routes/imoveis.js:67 | an id string casts exactly when it has 24 hexadecimal digits, to the number they denote |
| ObjectIds.IdText | routes/imoveis.js:12 | `_id.toString()`: 24 lower-case hexadecimal digits; properties in `CastIdText` and `IdTextInjective` |
| ObjectIds.CastIdText | routes/imoveis.js:12 | casting the text of `_id.toString()` gives back the same id |
| ObjectIds.IdTextInjective | routes/imoveis.js:12 | two different ids never have the same text |
| ListingFields.FieldNamedIff | models/Imovel.js:4-82 | a key names a path of the document exactly when it is that path's key |
| ListingSchemas.CombineAlternatives | routes/imoveis.js:19 | when both alternatives of `preco` fail, at least one detail is reported |
| ListingSchemas.CreateSchema | routes/imoveis.js:16-32 | definition of `createSchemaImovel`, key by key; properties in `CreateSchemaIff`, `CreateFieldsFirst`, `CreateFieldsMiddle`, `CreateFieldsLast` and `CreateAcceptsOnlyUpdatable` |
| ListingSchemas.UpdateSchema | routes/imoveis.js:35-51 | definition of `updateSchemaImovel`, key by key; properties in `UpdateSchemaIff`, `UpdateFieldsA` to `UpdateFieldsE` and `UpdateIsCreateWithNothingRequired` |
| ListingSchemas.DeclaresIff | routes/imoveis.js:16-32 | a key is declared by a schema exactly when it names one of the schema's paths |
| ListingSchemas.ItemsErrorsEmptyIff | routes/imoveis.js:29 | the items of `imagens` report nothing exactly when every item is a non-empty URI string |
| ListingSchemas.RuleErrorsEmptyIff | routes/imoveis.js:17-31 | a key's rule reports no detail exactly when the value conforms to the rule |
| ListingSchemas.FieldErrorsEmptyIff | routes/imoveis.js:17-31 | a declared key reports nothing exactly when it is absent and optional, or present and conforming |
| ListingSchemas.ChildrenErrorsEmptyIff | routes/imoveis.js:16-32 | the declared keys report nothing exactly when every declared key is accepted |
| ListingSchemas.UnknownErrorsEmptyIff | routes/imoveis.js:16-32 | no unknown-key detail is reported exactly when every key of the body is declared |
| ListingSchemas.SchemaErrors | middleware/validate.js:4 | definition of `schema.validate(body, { abortEarly: false }).error.details`: declared keys in order, then undeclared keys; properties in `SchemaErrorsEmptyIff`, `EveryViolationReported` and `DetailOrigin` |
| ListingSchemas.SchemaErrorsEmptyIff | middleware/validate.js:3 | the validator reports no error exactly when the body is accepted |
| SchemaProperties.SchemaFields | routes/imoveis.js:16-51 | both schemas declare every path of the model except `visualizacoes` |
| SchemaProperties.DeclaredKeys | routes/imoveis.js:16-51 | both schemas declare exactly the model's keys other than `visualizacoes` |
| SchemaProperties.PriceRuleIff | routes/imoveis.js:19 | `preco` conforms exactly when it is a safe number at least 0 or exactly the string `CONSULTAR VALOR` |
| SchemaProperties.UpdateFieldsA | routes/imoveis.js:36-38 | an update accepts `titulo` (3 to 100 UTF-16 code units), `descricao` (10 to 1000) and `preco` exactly when each is absent or well formed |
| SchemaProperties.UpdateFieldsB | routes/imoveis.js:39-41 | an update accepts `cidade`, `bairro` (2 to 50 UTF-16 code units) and `tipo` (one of four values) exactly when absent or well formed |
| SchemaProperties.UpdateFieldsC | routes/imoveis.js:42-44 | `valorCondominio` may be null or a number at least 0; `dormitorios` and `banheiros` are integers at least 0 |
| SchemaProperties.UpdateFieldsD | routes/imoveis.js:45-47 | `piscina` and `garagem` are booleans and `area` a number at least 0, when present |
| SchemaProperties.UpdateFieldsE | routes/imoveis.js:48-50 | `imagens` is a list of at least one URI, `destaque` a boolean, `finalidade` `venda` or `locacao`, when present |
| SchemaProperties.AstralTitleAccepted | routes/imoveis.js:36 | a title of two astral characters is two characters long, yet the update schema accepts it |
| SchemaProperties.CreateFieldsFirst | routes/imoveis.js:17-21 | on creation `titulo`, `descricao`, `preco`, `cidade` and `bairro` follow the update rule and must be present |
| SchemaProperties.CreateFieldsMiddle | routes/imoveis.js:22-26 | on creation `tipo`, `dormitorios` and `banheiros` must be present; `valorCondominio` and `piscina` stay optional |
| SchemaProperties.CreateFieldsLast | routes/imoveis.js:27-31 | on creation `area`, `imagens` and `finalidade` must be present; `garagem` and `destaque` stay optional |
| SchemaProperties.UpdateValuesIff | routes/imoveis.js:35-51 | the update schema's keys are all accepted exactly when every present key of the model holds a well-formed value |
| SchemaProperties.CreateValuesIff | routes/imoveis.js:16-32 | the create schema's keys are all accepted exactly when the values are well formed and the eleven required keys are present |
| SchemaProperties.UpdateSchemaIff | routes/imoveis.js:35-51 | the update schema accepts exactly the bodies with known keys only, each present one well formed |
| SchemaProperties.CreateSchemaIff | routes/imoveis.js:16-32 | the create schema accepts exactly those bodies that also hold every required key |
| SchemaProperties.CreateAcceptsOnlyUpdatable | routes/imoveis.js:16-51 | every body the create schema accepts the update schema accepts |
| SchemaProperties.UpdateIsCreateWithNothingRequired | routes/imoveis.js:16-51 | the two schemas declare the same keys in the same order with the same rules, and nothing is required for an update |
| SchemaProperties.EmptyBody | routes/imoveis.js:16-51 | the empty body is a valid update and is refused for creation |
| SchemaProperties.BadPriceRefused | routes/imoveis.js:19-38 | a price that is neither a number at least 0 nor the sentinel is refused by both schemas |
| SchemaProperties.ChildrenReported | middleware/validate.js:3 | every violation of any declared key is reported, whatever the other keys hold |
| SchemaProperties.UnknownReported | middleware/validate.js:3 | every undeclared key is reported as not allowed |
| SchemaProperties.EveryViolationReported | middleware/validate.js:3 | with `abortEarly: false`, each refused key and each unknown key contributes a detail naming it |
| SchemaProperties.FieldErrorsPath | middleware/validate.js:5 | every detail of a key has a path that starts with that key |
| ValidateGate.Label | middleware/validate.js:5 | definition of the quoted path label in front of each `err.message`; properties in `KeyLabel`, `MessageNamesKey` and `RefusalNamesKeys` |
| ValidateGate.Template | middleware/validate.js:5 | definition of Joi's English message template per error code; properties in `UnknownKeyMessage` and `MissingKeyMessage` |
| ValidateGate.Messages | middleware/validate.js:5 | one message per detail, in the same order, each the detail's label and template |
| ValidateGate.Validate | middleware/validate.js:2-9 | `next` is called exactly when the schema accepts the body; otherwise the answer is 400 with the non-empty list of the details' messages |
| ValidateGate.MessageNamesKey | middleware/validate.js:5 | every message opens with a quote and the key its detail is about, or `value` for a detail about the empty key alone |
| ValidateGate.RefusalIncludes | middleware/validate.js:4-6 | every reported detail has its message in the 400 answer |
| ValidateGate.UnknownKeyMessage | middleware/validate.js:3-6 | a body with an undeclared key is refused, and the answer holds `"key" is not allowed`, with `value` in place of the empty key |
| ValidateGate.MissingKeyMessage | middleware/validate.js:3-6 | a body lacking a required key is refused, and the answer holds `"key" is required` |
| ValidateGate.RefusalNamesKeys | middleware/validate.js:5-6 | every message of a refusal opens with a quote and the name of a key that the schema declares or the body holds (`value` for the empty key) |
| ValidateGate.DetailOrigin | middleware/validate.js:3 | every detail is about a declared key or a key of the body |
| ListingModel.ToObject | routes/imoveis.js:10 | definition of `imovel.toObject()`: `_id`, the paths, the timestamps and `__v`; properties in `RestOfObject` and `FormatShape` |
| ListingModel.Rest | routes/imoveis.js:11 | the rest of the object holds exactly its members other than `_id` and `__v` |
| ListingModel.FormatListing | routes/imoveis.js:9-13 | definition of `formatarImovel`; properties in `FormatShape` and `FormatIdentity` |
| ListingModel.FormatShape | routes/imoveis.js:9-13 | `formatarImovel` gives `id` first, then every path and both timestamps of the document, unchanged and in the order `ToObject` fixes |
| ListingModel.FormatIdentity | routes/imoveis.js:9-13 | the output has neither `_id` nor `__v`, and its `id` is text that casts back to the document's id |
| ListingModel.BuildListing | routes/imoveis.js:78 | definition of `new Imovel(req.body)`: defaults, then the supplied paths through their setters, both timestamps now; properties in `BuildDefaults` and `CreateSetsSupplied` |
| ListingModel.ApplyUpdate | routes/imoveis.js:89 | definition of the `$set` update of `findByIdAndUpdate`; properties in `UpdateSetsSupplied`, `SetPathsKeepsOthers` and `UpdateKeepsIdentity` |
| ListingModel.BuildDefaults | models/Imovel.js:39-77 | a new document holds 0 views, null `valorCondominio`, false flags and 0 counts when the body leaves them out, and both timestamps at creation time |
| ListingModel.SetPathValue | models/Imovel.js:4-82 | a supplied value of the path's type is stored as given, `titulo` trimmed |
| ListingModel.SetPathsKeepsOthers | routes/imoveis.js:89 | a path the body does not supply keeps its value |
| ListingModel.UpdateKeepsIdentity | models/Imovel.js:84-87 | an update keeps the id, `createdAt` and `__v`, and stamps `updatedAt` |
| ListingModel.TrimmedTitleShorter | models/Imovel.js:9 | a title of two spaces and a letter, at least three code units long and so past the schema minimum, is stored as the letter alone |
| ListingModel.StringsRoundTrip | models/Imovel.js:80-82 | the string list of `imagens` and its JSON rendering convert into each other without loss |
| ModelProperties.EnumsAgree | models/Imovel.js:23-32 | the model's enums for `tipo` and `finalidade` are the schemas' sets |
| ModelProperties.AcceptedHasNoViews | routes/imoveis.js:35-51 | no accepted body sets `visualizacoes` |
| ModelProperties.AcceptedConforming | routes/imoveis.js:35-51 | every value an accepted body supplies has the type of its path |
| ModelProperties.UpdateSetsSupplied | routes/imoveis.js:89 | an accepted update sets exactly the supplied paths, each to its value (`titulo` trimmed), and keeps every other path |
| ModelProperties.CreateSetsSupplied | routes/imoveis.js:78 | a created document holds every supplied value and the model's default elsewhere, with 0 views |
| ModelProperties.PriceKeptAsGiven | models/Imovel.js:35-38 | `preco` is stored exactly as the body gave it, number or sentinel string |
| ModelProperties.CreateAcceptedRequired | models/Imovel.js:6-38 | an accepted creation body supplies every string the model requires, enum values the model allows, and a non-null price |
| ListingModel.ModelValid | models/Imovel.js:6-38 | definition of what `save()` validates: the `required` string paths non-empty, `tipo` and `finalidade` in their enums, `preco` present; properties in `CreateAcceptedModelValid` and `UpdateKeepsModelValid` |
| ListingModel.UpdateValidatorsPass | routes/imoveis.js:89 | definition of `runValidators: true`: only the supplied paths are validated, after their setters; properties in `UpdateAcceptedValidators` |
| ModelProperties.CreateAcceptedModelValid | models/Imovel.js:6-38 | `save()` accepts a document built from an accepted body exactly when its title is not white space only |
| ModelProperties.UpdateAcceptedValidators | routes/imoveis.js:89 | the update validators refuse an accepted update exactly when it sets a title of white space only |
| ModelProperties.UpdateKeepsModelValid | routes/imoveis.js:89 | an update that passed the schema and the validators keeps a valid document valid and its views unchanged |
| ListingService.NewestFirst | routes/imoveis.js:57 | definition of `Imovel.find().sort({ createdAt: -1 })`; properties in `NewestFirstMembers` and `NewestFirstSorted` |
| ListingService.NewestFirstMembers | routes/imoveis.js:57 | the listing has one entry per document and holds exactly the stored documents |
| ListingService.NewestFirstSorted | routes/imoveis.js:57 | the listing is in strictly decreasing order of creation |
| ListingService.InsertKeepsConsistent | routes/imoveis.js:78-79 | storing a fresh valid document created now keeps the collection consistent |
| ListingService.ReplaceKeepsConsistent | routes/imoveis.js:89 | replacing a document by a valid one with the same id and creation time keeps the collection consistent |
| ListingService.RemoveKeepsConsistent | routes/imoveis.js:101 | removing a document keeps the collection consistent |
| ListingService.ListingStore.List | routes/imoveis.js:55-62 | 200 with the documents newest first, or 500 `Erro ao buscar imóveis.` when the store fails |
| ListingService.ListingStore.Find | routes/imoveis.js:65-73 | the document with 200, 404 `Imóvel não encontrado.` for an unknown id, 500 for a malformed id or a store failure |
| ListingService.ListingStore.Create | routes/imoveis.js:76-84 | the built document is stored under the new id and answered with 201, or nothing changes and the answer is 500 |
| ListingService.ListingStore.Update | routes/imoveis.js:87-96 | a cast, validation or store failure gives 400 and no change; an unknown id gives 404 and no change; otherwise only that document is replaced by the merged one |
| ListingService.ListingStore.Delete | routes/imoveis.js:99-107 | only that id is removed, with 200; an unknown id gives 404 and no change; a malformed id or a store failure gives 500 and no change |
| TokenAuth.BearerToken | middleware/autenticarToken.js:7-8 | the token is the second space-separated part of the header, present exactly when that part exists and is non-empty |
| TokenAuth.Authorize | middleware/autenticarToken.js:6-21 | no token gives 401 `Token não fornecido.`; a failed verification gives 403 `Token inválido ou expirado.`; otherwise the request proceeds with the decoded payload |
| TokenAuth.AutenticarToken | middleware/autenticarToken.js:6-21 | the decision of `Authorize`; `req.usuario` is written exactly when the request proceeds, and the header is left alone |
| TokenAuth.BearerRoundTrip | middleware/autenticarToken.js:7-8 | `Bearer <token>` gives back the token, for any non-empty token without spaces |
| TokenAuth.NoTokenNoVerify | middleware/autenticarToken.js:10 | without a second header part the answer is 401 whatever the verifier and the time |
| TokenAuth.ProceedBeforeExpiry | middleware/autenticarToken.js:12-15 | under a sound library, a request proceeds only before the expiry its token carries |
| TokenAuth.SignedTokenProceeds | middleware/autenticarToken.js:12-19 | a token the server signed proceeds before its expiry, with its own payload |
| TokenAuth.ExpiredTokenForbidden | middleware/autenticarToken.js:12-15 | the same token gets 403 from its expiry on |
| AuthService.ReadCredentials | routes/auth.js:13-17 | credentials are missing exactly when `email` or `senha` is falsy; otherwise the email is either not a string or a non-empty string given together with the truthy `senha` value as sent |
| AuthService.AddKeepsConsistent | routes/auth.js:24-26 | adding a user under a new email with an unused id keeps every user under its own email and the ids distinct |
| AuthService.UserStore.Register | routes/auth.js:11-33 | falsy credentials give 400, a known email gives 409 whatever the password, and a store failure, a non-string password or a non-string email give 500, each with no change; otherwise exactly one user is added, holding the hash of the password |
| AuthService.SessionClaims | routes/auth.js:55 | the token payload holds the user's id text and email and expires one hour after issue |
| AuthService.Login | routes/auth.js:36-62 | falsy credentials give 400; a store failure, a non-string email, or a non-string password for a known email give 500; success comes exactly when the email is known and the string password matches, returning the signed session and the stored email; every other answer is 401 `Credenciais inválidas.` |
| AuthService.LoginIndistinguishable | routes/auth.js:44-53 | with a string password, an unknown email and a wrong password get the same answer, 401 `Credenciais inválidas.` |
| AuthService.LoginRevealsKnownEmail | routes/auth.js:44-50 | with a password that is not a string, an unknown email gets 401 but a known one gets 500, so the answer tells them apart |
| AuthService.NumericPasswordBody | routes/auth.js:13 | the body `{"email": "a@b.c", "senha": 123}` is read as a string email with a numeric password |
| AuthService.RegisteredUserLogsIn | routes/auth.js:24-57 | under a sound bcrypt, a user just registered logs in with the same credentials and gets a token for their new id |
| AuthService.SessionAuthorizes | routes/auth.js:55 | under a sound JWT library, the login token lets requests through for the following hour, with the user's id and email |
| AuthService.SessionExpires | routes/auth.js:55 | the login token is refused with 403 from one hour after issue |
| ListingRoutes.PostImovel | routes/imoveis.js:76 | token refusal, then schema refusal (400 with the messages), each with the store unchanged; otherwise the creation outcome; `req.usuario` is written exactly when the token check proceeds, and the header is left alone |
| ListingRoutes.PutImovel | routes/imoveis.js:87 | token refusal, then schema refusal, each with the store unchanged; otherwise the update outcome; `req.usuario` is written exactly when the token check proceeds, and the header is left alone |
| ListingRoutes.DeleteImovel | routes/imoveis.js:99 | token refusal with the store unchanged; otherwise the delete outcome; `req.usuario` is written exactly when the token check proceeds, and the header is left alone |

## Left out

- **I/O.** HTTP framing, the async scheduling of handlers and `console.error` logging are not modelled. Concurrent requests are not modelled either: each call of a store method is one atomic step.
- **routes/upload.js and index.js.** The upload routes are a wrapper around an external media host. index.js is process bootstrap: CORS, the database connection, static files and `listen`.
- **The Usuario model.** `models/Usuario.js` is not part of this model. Users are keyed by their exact email. An `email` that is truthy but not a string ends in the routes' generic 500, whereas the real outcome depends on that model's casting of the query. A non-string `senha` is never cast or queried; it reaches bcrypt, which throws, and that is modelled.
- **Library internals.** Bcrypt's and the JWT library's algorithms and the signing secret are absent. The libraries are parameters, and what is relied on from them is the predicates `BcryptSound` and `JwtSound`.
- **Joi conversion and URI grammar.** Joi's conversions from strings to numbers or booleans are not modelled, and the URI grammar is the parameter `isUri`. In the model a body must hold numbers and booleans as JSON numbers and booleans. In the code Joi also accepts, say, `"dormitorios": "3"` or `"preco": "100"`, and because `validate` keeps only Joi's `error` and drops its converted value, the original string is what reaches Mongoose: it casts `"3"` to 3, and it stores `"100"` as a string under the Mixed `preco`. So in the code a stored price can also be a numeric string.
- **Numbers.** JSON numbers are exact reals: there is no floating point. Numbers beyond `Number.MAX_SAFE_INTEGER` are the only precision check.
- **Ids.** Only the 24-hexadecimal-digit form of an id string is cast. The 12-character binary form that ObjectId also accepts is not modelled.
- **Mongoose casting.** Values that Joi converts do reach Mongoose with their original type, as the line above says: Mongoose casts them for typed paths and keeps them as given for `preco`. The model does not represent that conversion, so behind its schemas every supplied value already has its path's type, and its setters ignore a wrongly typed value instead of casting it or raising a cast error.
- ModelProperties.AcceptedConforming: holds only because Joi's conversion is not modelled; in the code an accepted body can carry a numeric string for a number path.
- ModelProperties.PriceKeptAsGiven: the model's stored price is a number or the sentinel; in the code a numeric string that Joi converted for validation is stored as that string.
- **Time.** Timestamps are ticks of a logical clock, not wall-clock dates, and every creation gets its own tick. That is what lets `NewestFirst` pick a unique newest document and `NewestFirstSorted` promise a strictly decreasing order. In the code two saves in the same millisecond share `createdAt`, and the order between them is unspecified. Token times are seconds given as a parameter.
- **Error text.** The `err.message` text of a failed update is reduced to the kind of failure (`UpdateFailure`).
- **JSON rendering.** The document sent by POST and GET is the `Listing` value, not its JSON rendering by `toJSON`.
- **Duplicate ids.** A new id already in use counts as a store failure, as a duplicate-key error would.
- **Header casing.** The header is the already-lowercased `authorization` entry of Express's header map.
- **Non-object bodies.** A body is always a JSON object. `express.json()` also delivers a top-level array, which Joi answers with 400 `"value" must be of type object` and the auth routes answer with 400. That path is not modelled.
- **Property order.** Body members are taken in the order given, standing for their JavaScript property order. `Object.keys` lists integer-like keys first; the model does not reorder such keys, so for them the order of unknown-key messages can differ.
- ListingModel.ToObject: the model fixes the member order of `toObject()` as `_id`, the schema paths, the timestamps, then `__v`. The real order follows how the document was built.
- ListingModel.Blank: `area`, which has no default in the model, is `0` before the body is applied. Only bodies the create schema accepts are built, and every such body supplies `area`. So the placeholder never survives into a stored document.
