# Authorization input filter and password-change check

A Dafny model of two pieces of a content platform's server-side logic:

- **`filterInput(user, feature, input, target)`**, the authorization input
  filter. A request names a *feature* (an action such as `update:user`). The
  filter rejects a feature outside a closed set of nine with a
  `ValidationError`. It answers `{}` to a user who lacks the feature, or who
  fails the feature's ownership check. Otherwise it projects the request's input
  onto the feature's whitelist of fields, renaming `token_id` to `tokenId` for
  `read:activation_token`. The implementation file `models/authorization.js`
  is not part of this model's sources: the behaviour is taken from its unit
  tests, `tests/unit/models/authorization.test.js`.
- **`isPasswordMismatch(password, newpassword, confirmpassword)`**, which,
  despite its name, answers `true` only when a password change may go ahead.

Both are pure, so the model is datatypes, functions and lemmas.

Files:

- `wrappers.dfy`, module `Wrappers`: `Option` (`None` is JavaScript's `null`
  or `undefined`) and a map lookup `Get`.
- `authorization.dfy`, module `Authorization`: the user, target and rule
  datatypes; the feature set `ValidFeatures`; the policy table `Policy`, one
  `Rule` per feature (a list of (source key, output key) pairs and an
  ownership check); `Project`; `FilterInput`; and the lemmas about them.
- `authorization_cases.dfy`, module `AuthorizationCases`: the nineteen unit
  cases, one lemma each.
- `password_validation.dfy`, module `PasswordValidation`: the predicate, the
  reference condition `AcceptableChange` it is proved equivalent to, the
  lemmas and the four unit cases.

Modelling decisions:

- An input object is a `map<string, string>` of its defined entries. A
  filtered object is a `map<string, Option<string>>` holding every key the
  filter writes, with `None` where it wrote `undefined`.
- The tests compare with a deep equality that ignores `undefined`
  properties. The per-feature and per-case lemmas are therefore stated over
  `Defined(r)`, the entries whose value is defined. The facts about the whole
  key set (`Project`'s first ensures, `FilterInput`'s third ensures,
  `EmptyIffDenied`) hold of this model and are not pinned down by the tests.
  On defined entries a denial and an authorized request with nothing to pass
  look the same (`NoOpLooksLikeDenial`).
- The checks run in order: feature validation, then permission, then
  ownership, then projection. The tests do not fix the relative order of the
  permission and ownership checks; both give `{}`.
- A feature with an ownership check denies a request without a target. This
  is a modelling choice (`MissingTargetDenied`); no test covers it.
- The constant `ValidFeatures` is the nine-feature set the tests install
  (tests/unit/models/authorization.test.js:5-17). The constant `Policy` holds
  the per-feature field lists, renames and ownership checks that the expected
  results at lines 34-260 of that file list; `PolicyCoversFeatures`,
  `PolicyWellFormed`, `PolicyRenames`, `PolicyOwnership` and the per-feature
  lemmas state its content.
- `OwnershipHolds` is the ownership check of a rule: none always passes;
  the self check passes when the target's `id` is the user's id
  (tests/unit/models/authorization.test.js:91-117); the owner check passes
  when the target's `owner_id` is the user's id (lines 233-260). A check that
  needs a target fails without one, the modelling choice of
  `MissingTargetDenied`.
- `Authorized` holds when the user holds the feature and the feature's
  ownership check passes (lines 34-260).
- `AuthorizationCases.MockUser` is the test user of lines 24-28: the given
  features and the identity `user123` unless another is given.
- The error carries the rejected feature string.
- Password length is the number of characters, `|s|`.

## Model

| member | source | states |
|---|---|---|
| `Authorization.PolicyCoversFeatures` | tests/unit/models/authorization.test.js:5-17 | the policy table has a rule for each of the nine recognised features and for nothing else |
| `Authorization.PolicyWellFormed` | tests/unit/models/authorization.test.js:34-260 | every rule projects at least one field and writes no output key twice |
| `Authorization.PolicyRenames` | tests/unit/models/authorization.test.js:159-167 | a field of the table is renamed exactly when the feature is `read:activation_token`, whose single field reads `token_id` and writes `tokenId` |
| `Authorization.PolicyOwnership` | tests/unit/models/authorization.test.js:91-117 | only `update:user` checks that the target is the user, and only `update:content` checks that the user owns the target |
| `Authorization.Project` | tests/unit/models/authorization.test.js:91-106 | the projection's keys are exactly the declared output keys; each value is the input's value (or `undefined`) under a declared source key; with distinct output keys, each declared field carries its own source's value |
| `Authorization.FilterInput` | tests/unit/models/authorization.test.js:34-260 | a validation error exactly for a feature outside the nine, carrying that feature; success is either `{}` or an object with every declared key; a non-empty result implies the user holds the feature and passes its ownership check |
| `Authorization.DefinedProject` | tests/unit/models/authorization.test.js:91-106 | the defined entries of a projection equal the reference whitelist: each declared field whose source key the input defines, under its output key |
| `Authorization.WhitelistOfSame` | tests/unit/models/authorization.test.js:34-45 | for a rule that renames nothing, the whitelist is the input restricted to the declared keys |
| `Authorization.FilterDefined` | tests/unit/models/authorization.test.js:34-260 | for every known feature the result is an object whose defined entries are the whitelist when the user is authorized and nothing otherwise |
| `Authorization.EmptyIffDenied` | tests/unit/models/authorization.test.js:108-117 | for a known feature, the model's result map is empty if and only if the user is not authorized (there is no partial projection); this is a fact of the model's key set, not something a caller comparing defined entries can observe |
| `Authorization.NoOpLooksLikeDenial` | tests/unit/models/authorization.test.js:91-117 | an authorized request with an empty input has no defined entries, the same as a denial, so the two cannot be told apart from outside |
| `Authorization.OnlyDeclaredKeys` | tests/unit/models/authorization.test.js:139-147 | every key of a result is an output key declared by the feature's rule, so undeclared input keys are dropped |
| `Authorization.UnknownFeatureFails` | tests/unit/models/authorization.test.js:57-65 | an unknown feature fails with a validation error whatever the user's features, the input and the target |
| `Authorization.MissingPermissionDenies` | tests/unit/models/authorization.test.js:47-55 | a known feature the user does not hold yields `{}` whatever the input and target |
| `Authorization.OwnershipFailureDenies` | tests/unit/models/authorization.test.js:108-117 | a held feature whose ownership check fails yields `{}` |
| `Authorization.TargetIgnoredWithoutOwnership` | tests/unit/models/authorization.test.js:34-45 | a feature without an ownership check gives the same result for any two targets |
| `Authorization.MissingTargetDenied` | tests/unit/models/authorization.test.js:91-117 | a feature with an ownership check yields `{}` when there is no target (a modelling choice) |
| `Authorization.GrantedSame` | tests/unit/models/authorization.test.js:34-260 | for an authorized, rename-free feature, the defined entries of the result are the input restricted to the rule's keys |
| `Authorization.CreateSessionProjects` | tests/unit/models/authorization.test.js:34-45 | with `create:session` held, the defined entries are the input's `email` and `password` |
| `Authorization.CreateUserProjects` | tests/unit/models/authorization.test.js:67-79 | with `create:user` held, the defined entries are the input's `username`, `email` and `password` |
| `Authorization.UpdateUserProjects` | tests/unit/models/authorization.test.js:91-106 | with `update:user` held and `target.id == user.id`, the defined entries are the input's `username`, `email`, `password`, `description` and `notifications`; a field the input lacks stays undefined, so it is absent from them |
| `Authorization.UpdateUserRejectsOtherTarget` | tests/unit/models/authorization.test.js:108-117 | with `update:user` held but `target.id` not the user's id, the result is `{}` |
| `Authorization.UpdateUserOthersProjects` | tests/unit/models/authorization.test.js:119-127 | with `update:user:others` held, the defined entries are the input's `description` |
| `Authorization.BanUserProjects` | tests/unit/models/authorization.test.js:139-147 | with `ban:user` held, the defined entries are the input's `ban_type` |
| `Authorization.ReadActivationTokenRenames` | tests/unit/models/authorization.test.js:159-167 | with `read:activation_token` held, the only defined entry is `tokenId`, carrying the input's `token_id`, and there is none when the input lacks `token_id` |
| `Authorization.CreateRootContentProjects` | tests/unit/models/authorization.test.js:179-194 | with `create:content:text_root` held, the defined entries are the input's `slug`, `title`, `body`, `status`, `type` and `source_url` |
| `Authorization.CreateChildContentProjects` | tests/unit/models/authorization.test.js:206-221 | with `create:content:text_child` held, the defined entries are the input's `parent_id`, `slug`, `title`, `body`, `status` and `source_url` |
| `Authorization.UpdateContentProjects` | tests/unit/models/authorization.test.js:233-249 | with `update:content` held and `target.owner_id == user.id`, the defined entries are the input's `parent_id`, `slug`, `title`, `body`, `status` and `source_url` |
| `Authorization.UpdateContentRejectsOtherOwner` | tests/unit/models/authorization.test.js:251-260 | with `update:content` held but `target.owner_id` not the user's id, the result is `{}` |
| `AuthorizationCases.CreateSessionGranted` | tests/unit/models/authorization.test.js:34-45 | case CT1: the email and password come through unchanged |
| `AuthorizationCases.CreateSessionDenied` | tests/unit/models/authorization.test.js:47-55 | case CT2: `{}` |
| `AuthorizationCases.InvalidFeatureRejected` | tests/unit/models/authorization.test.js:57-65 | case CT3: `invalid_feature` fails validation although the user holds `create:session` |
| `AuthorizationCases.CreateUserGranted` | tests/unit/models/authorization.test.js:67-79 | case CT4: username, email and password come through unchanged |
| `AuthorizationCases.CreateUserDenied` | tests/unit/models/authorization.test.js:81-89 | case CT5: `{}` |
| `AuthorizationCases.UpdateUserOwnTarget` | tests/unit/models/authorization.test.js:91-106 | case CT6: only `username` is defined |
| `AuthorizationCases.UpdateUserOtherTarget` | tests/unit/models/authorization.test.js:108-117 | case CT7: `{}` |
| `AuthorizationCases.UpdateUserOthersGranted` | tests/unit/models/authorization.test.js:119-127 | case CT8: exactly `{description: 'test'}` |
| `AuthorizationCases.UpdateUserOthersDenied` | tests/unit/models/authorization.test.js:129-137 | case CT9: `{}` |
| `AuthorizationCases.BanUserGranted` | tests/unit/models/authorization.test.js:139-147 | case CT10: `{ban_type: 'temp'}` |
| `AuthorizationCases.BanUserDenied` | tests/unit/models/authorization.test.js:149-157 | case CT11: `{}` |
| `AuthorizationCases.ReadTokenGranted` | tests/unit/models/authorization.test.js:159-167 | case CT12: `{tokenId: 'xyz'}` |
| `AuthorizationCases.ReadTokenDenied` | tests/unit/models/authorization.test.js:169-177 | case CT13: `{}` |
| `AuthorizationCases.CreateRootGranted` | tests/unit/models/authorization.test.js:179-194 | case CT14: slug, title and body defined, the rest undefined |
| `AuthorizationCases.CreateRootDenied` | tests/unit/models/authorization.test.js:196-204 | case CT15: `{}` |
| `AuthorizationCases.CreateChildGranted` | tests/unit/models/authorization.test.js:206-221 | case CT16: parent_id and slug defined, the rest undefined |
| `AuthorizationCases.CreateChildDenied` | tests/unit/models/authorization.test.js:223-231 | case CT17: `{}` |
| `AuthorizationCases.UpdateContentOwnTarget` | tests/unit/models/authorization.test.js:233-249 | case CT18: only `title` defined |
| `AuthorizationCases.UpdateContentOtherTarget` | tests/unit/models/authorization.test.js:251-260 | case CT19: `{}` |
| `PasswordValidation.MissingPasswordRejected` | models/passwordValidation.js:3 | false when the new password or the confirmation is missing |
| `PasswordValidation.UnconfirmedPasswordRejected` | models/passwordValidation.js:5 | false when the new password differs from the confirmation |
| `PasswordValidation.UnchangedPasswordRejected` | models/passwordValidation.js:7 | false when the new password equals the old one |
| `PasswordValidation.ShortPasswordRejected` | models/passwordValidation.js:9 | false when the new password is shorter than 8 characters |
| `PasswordValidation.IsPasswordMismatch` | models/passwordValidation.js:1-12 | true if and only if new and confirmation are present, equal, different from the old password, and at least 8 characters long |
| `PasswordValidation.MissingOldPasswordNeverBlocks` | models/passwordValidation.js:7 | a missing old password never blocks an otherwise acceptable change |
| `PasswordValidation.AllMissingCase` | tests/unit/models/PasswordValidation.test.js:6-8 | all three missing: false |
| `PasswordValidation.UnconfirmedCase` | tests/unit/models/PasswordValidation.test.js:10-12 | `('abc', 'abc', 'abc1')`: false |
| `PasswordValidation.UnchangedCase` | tests/unit/models/PasswordValidation.test.js:14-16 | `('abc1', 'abc1', 'abc1')`: false |
| `PasswordValidation.ShortCase` | tests/unit/models/PasswordValidation.test.js:18-20 | `('abc', 'abc1', 'abc1')`: false |

## Left out

- `models/authorization.js` is not part of this model. Whatever it does beyond what the unit tests fix is modelled by choice: dropping undeclared input keys, the order of the permission and ownership checks, denial on a missing target, and the declared fields that the expected results show only as `undefined` (`email`, `password`, `description` and `notifications` of `update:user`; `status`, `type` and `source_url` of `create:content:text_root`; `title`, `body`, `status` and `source_url` of `create:content:text_child`; `parent_id`, `slug`, `body`, `status` and `source_url` of `update:content`), since a deep equality that ignores `undefined` properties cannot see them.
- Field-value validation: the tests replace the validator with the identity, and its schema is not part of this model.
- How a user's features are computed or stored, sessions, HTTP handling and the test mocking machinery.
- Input values are strings. The filter copies values without inspecting them, so other JavaScript value types would behave alike.
- JavaScript's loose-equality coercions beyond "`null` and `undefined` are both absent" are not modelled.
- Password length counts characters, not UTF-16 code units, so it differs from JavaScript's `length` for characters outside the Basic Multilingual Plane.
- The password-confirmation UI component (`pages/interface/components/PasswordResetForm/index.js`) is display logic and is not modelled.
- Determinism and idempotence of the filter hold because it is a function; no lemma states them.
