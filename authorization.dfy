/** The authorization input filter `filterInput(user, feature, input, target)`.

    A request names a feature (an action such as `update:user`). The filter
    rejects a feature outside the closed set of known features with a
    validation error, denies (empty result) a user who lacks the feature or
    fails the feature's ownership check, and otherwise projects the input onto
    the feature's whitelist of fields, renaming where the policy says so.

    The policy is kept as data: one `Rule` per feature, listing its fields as
    (source key, output key) pairs and naming its ownership check. */
module Authorization {
  import opened Wrappers

  type Feature = string

  /** The defined entries of a JavaScript input object. */
  type Input = map<string, string>

  /** A filtered object: every key the filter writes, `None` where it wrote `undefined`. */
  type Output = map<string, Option<string>>

  /** The requesting user: an identity and the set of features granted to it. */
  datatype User = User(id: string, features: set<Feature>)

  /** The resource a request acts upon; either identity field may be missing. */
  datatype Target = Target(id: Option<string>, ownerId: Option<string>)

  /** One projected field: read `input[source]`, write it as `output`. */
  datatype FieldSpec = FieldSpec(source: string, output: string)

  /** The ownership check a feature declares. */
  datatype Ownership =
    | AnyTarget    // no check
    | SelfTarget   // the target is the user itself: target.id == user.id
    | OwnedTarget  // the target belongs to the user: target.owner_id == user.id

  datatype Rule = Rule(fields: seq<FieldSpec>, ownership: Ownership)

  /** What the filter gives back: a thrown `ValidationError`, or an object. */
  datatype FilterResult = ValidationError(feature: Feature) | Ok(output: Output)

  /** The closed set of features the filter recognises. */
  const ValidFeatures: set<Feature> := {
    "create:session",
    "create:user",
    "update:user",
    "update:user:others",
    "ban:user",
    "read:activation_token",
    "create:content:text_root",
    "create:content:text_child",
    "update:content"
  }

  /** A field that keeps its name. */
  function Same(key: string): FieldSpec {
    FieldSpec(key, key)
  }

  /** The policy table: one rule per feature. */
  const Policy: map<Feature, Rule> := map[
    "create:session" :=
      Rule([Same("email"), Same("password")], AnyTarget),
    "create:user" :=
      Rule([Same("username"), Same("email"), Same("password")], AnyTarget),
    "update:user" :=
      Rule([Same("username"), Same("email"), Same("password"), Same("description"), Same("notifications")],
           SelfTarget),
    "update:user:others" :=
      Rule([Same("description")], AnyTarget),
    "ban:user" :=
      Rule([Same("ban_type")], AnyTarget),
    "read:activation_token" :=
      Rule([FieldSpec("token_id", "tokenId")], AnyTarget),
    "create:content:text_root" :=
      Rule([Same("slug"), Same("title"), Same("body"), Same("status"), Same("type"), Same("source_url")],
           AnyTarget),
    "create:content:text_child" :=
      Rule([Same("parent_id"), Same("slug"), Same("title"), Same("body"), Same("status"), Same("source_url")],
           AnyTarget),
    "update:content" :=
      Rule([Same("parent_id"), Same("slug"), Same("title"), Same("body"), Same("status"), Same("source_url")],
           OwnedTarget)
  ]

  /** The output keys a list of fields declares. */
  function Outputs(fields: seq<FieldSpec>): set<string> {
    set i | 0 <= i < |fields| :: fields[i].output
  }

  /** No two fields write the same output key. */
  predicate DistinctOutputs(fields: seq<FieldSpec>) {
    forall i, j | 0 <= i < j < |fields| :: fields[i].output != fields[j].output
  }

  /** A rule the filter can apply unambiguously: it projects at least one field
      and never writes one output key twice. */
  predicate WellFormed(rule: Rule) {
    |rule.fields| > 0 && DistinctOutputs(rule.fields)
  }

  /** Every known feature has exactly one rule, and no rule exists for anything else. */
  lemma PolicyCoversFeatures()
    ensures Policy.Keys == ValidFeatures
  {
  }

  /** Every rule of the table is well formed. */
  lemma PolicyWellFormed(feature: Feature)
    requires feature in Policy
    ensures WellFormed(Policy[feature])
  {
  }

  /** The table renames exactly one field: `read:activation_token` reads
      `token_id` and writes `tokenId`; every other field keeps its name. */
  lemma PolicyRenames(feature: Feature, i: int)
    requires feature in Policy && 0 <= i < |Policy[feature].fields|
    ensures Policy[feature].fields[i].source != Policy[feature].fields[i].output
        <==> feature == "read:activation_token"
    ensures feature == "read:activation_token" ==> Policy[feature].fields == [FieldSpec("token_id", "tokenId")]
  {
  }

  /** Exactly two features check ownership: `update:user` checks that the
      target is the user, `update:content` that the user owns the target. */
  lemma PolicyOwnership(feature: Feature)
    requires feature in Policy
    ensures Policy[feature].ownership == SelfTarget <==> feature == "update:user"
    ensures Policy[feature].ownership == OwnedTarget <==> feature == "update:content"
  {
  }

  /** The rule of a known feature. */
  function RuleOf(feature: Feature): Rule
    requires feature in ValidFeatures
  {
    PolicyCoversFeatures();
    Policy[feature]
  }

  /** Whether the target passes an ownership check on behalf of the user.
      A missing target never passes a check that needs one. */
  predicate OwnershipHolds(ownership: Ownership, user: User, target: Option<Target>) {
    match ownership
    case AnyTarget => true
    case SelfTarget => target.Some? && target.value.id == Some(user.id)
    case OwnedTarget => target.Some? && target.value.ownerId == Some(user.id)
  }

  /** The user may act on the target through a known feature. */
  predicate Authorized(user: User, feature: Feature, target: Option<Target>)
    requires feature in ValidFeatures
  {
    feature in user.features && OwnershipHolds(RuleOf(feature).ownership, user, target)
  }

  /** Writes each field, in declared order, into a fresh object: the output key
      gets the input's value under the source key, or `undefined`. */
  function Project(fields: seq<FieldSpec>, input: Input): (r: Output)
    ensures r.Keys == Outputs(fields)
    ensures forall k | k in r :: exists i | 0 <= i < |fields| ::
              fields[i].output == k && r[k] == Get(input, fields[i].source)
    ensures DistinctOutputs(fields) ==>
              forall i | 0 <= i < |fields| :: r[fields[i].output] == Get(input, fields[i].source)
    decreases |fields|
  {
    if fields == [] then map[]
    else
      var init, last := fields[..|fields| - 1], fields[|fields| - 1];
      assert fields == init + [last];
      var rest := Project(init, input);
      ProjectOneMore(init, last, input, rest);
      rest[last.output := Get(input, last.source)]
  }

  /** One step of `Project`: writing one more field keeps its three properties. */
  lemma ProjectOneMore(init: seq<FieldSpec>, last: FieldSpec, input: Input, rest: Output)
    requires rest.Keys == Outputs(init)
    requires forall k | k in rest :: exists i | 0 <= i < |init| ::
               init[i].output == k && rest[k] == Get(input, init[i].source)
    requires DistinctOutputs(init) ==>
               forall i | 0 <= i < |init| :: rest[init[i].output] == Get(input, init[i].source)
    ensures var fields, r := init + [last], rest[last.output := Get(input, last.source)];
            && r.Keys == Outputs(fields)
            && (forall k | k in r :: exists i | 0 <= i < |fields| ::
                  fields[i].output == k && r[k] == Get(input, fields[i].source))
            && (DistinctOutputs(fields) ==>
                  forall i | 0 <= i < |fields| :: r[fields[i].output] == Get(input, fields[i].source))
  {
    var fields, r := init + [last], rest[last.output := Get(input, last.source)];
    assert forall i | 0 <= i < |init| :: fields[i] == init[i];
    assert fields[|init|] == last;
    assert Outputs(fields) == Outputs(init) + {last.output};
    forall k | k in r
      ensures exists i | 0 <= i < |fields| :: fields[i].output == k && r[k] == Get(input, fields[i].source)
    {
      if k == last.output {
        assert fields[|fields| - 1].output == k;
      } else {
        var i :| 0 <= i < |init| && init[i].output == k && rest[k] == Get(input, init[i].source);
        assert fields[i] == init[i];
      }
    }
    if DistinctOutputs(fields) {
      assert DistinctOutputs(init);
      forall i | 0 <= i < |fields|
        ensures fields[i].output in r && r[fields[i].output] == Get(input, fields[i].source)
      {
        if i < |init| {
          assert fields[i] == init[i] && fields[i].output != fields[|init|].output;
          assert init[i].output in rest;
        }
      }
    }
  }

  /** `filterInput`: validate the feature, check the permission, check
      ownership, then project. */
  function FilterInput(user: User, feature: Feature, input: Input, target: Option<Target>): (r: FilterResult)
    ensures r.ValidationError? <==> feature !in ValidFeatures
    ensures r.ValidationError? ==> r.feature == feature
    ensures r.Ok? ==> r.output == map[] || r.output.Keys == Outputs(RuleOf(feature).fields)
    ensures r.Ok? && r.output != map[] ==> Authorized(user, feature, target)
  {
    if feature !in ValidFeatures then ValidationError(feature)
    else
      var rule := RuleOf(feature);
      if feature !in user.features then Ok(map[])
      else if !OwnershipHolds(rule.ownership, user, target) then Ok(map[])
      else Ok(Project(rule.fields, input))
  }

  // ---------------------------------------------------------------------------
  // What a caller observes: the defined entries of the result.

  /** The entries of an object whose value is not `undefined`: what a deep
      equality that ignores `undefined` properties compares. */
  function Defined(r: Output): map<string, string> {
    map k | k in r && r[k].Some? :: r[k].value
  }

  /** The reference projection: each declared field whose source key the input
      defines, under its output key. */
  function Whitelist(fields: seq<FieldSpec>, input: Input): (w: map<string, string>)
    requires DistinctOutputs(fields)
    ensures w.Keys <= Outputs(fields)
  {
    map i | 0 <= i < |fields| && fields[i].source in input :: fields[i].output := input[fields[i].source]
  }

  /** The input restricted to a set of keys. */
  function Pick(input: Input, keys: set<string>): map<string, string> {
    map k | k in input && k in keys :: input[k]
  }

  /** The reference projection at one declared field. */
  lemma WhitelistAt(fields: seq<FieldSpec>, input: Input, i: int)
    requires DistinctOutputs(fields) && 0 <= i < |fields|
    ensures fields[i].output in Whitelist(fields, input) <==> fields[i].source in input
    ensures fields[i].source in input ==> Whitelist(fields, input)[fields[i].output] == input[fields[i].source]
  {
    var w := Whitelist(fields, input);
    if fields[i].output in w {
      var j :| 0 <= j < |fields| && fields[j].source in input && fields[j].output == fields[i].output;
      assert i == j;
    }
  }

  /** Projection agrees with the reference projection at one key. */
  lemma DefinedProjectAt(fields: seq<FieldSpec>, input: Input, k: string)
    requires DistinctOutputs(fields)
    ensures k in Defined(Project(fields, input)) <==> k in Whitelist(fields, input)
    ensures k in Whitelist(fields, input) ==> Defined(Project(fields, input))[k] == Whitelist(fields, input)[k]
  {
    var r := Project(fields, input);
    if k in r {
      var i :| 0 <= i < |fields| && fields[i].output == k && r[k] == Get(input, fields[i].source);
      WhitelistAt(fields, input, i);
    }
  }

  /** Restricting an input to a superset of its keys leaves it unchanged. */
  lemma PickAll(input: Input, keys: set<string>)
    requires input.Keys <= keys
    ensures Pick(input, keys) == input
  {
    var p := Pick(input, keys);
    forall k ensures (k in p <==> k in input) && (k in input ==> p[k] == input[k]) {
    }
    SameEntries(p, input);
  }

  /** Projection agrees with the reference projection on defined entries. */
  lemma DefinedProject(fields: seq<FieldSpec>, input: Input)
    requires DistinctOutputs(fields)
    ensures Defined(Project(fields, input)) == Whitelist(fields, input)
  {
    var d, w := Defined(Project(fields, input)), Whitelist(fields, input);
    forall k ensures (k in d <==> k in w) && (k in w ==> d[k] == w[k]) {
      DefinedProjectAt(fields, input, k);
    }
    SameEntries(d, w);
  }

  /** Two maps that agree at every key are equal. */
  lemma SameEntries(d: map<string, string>, w: map<string, string>)
    requires forall k :: (k in d <==> k in w) && (k in w ==> d[k] == w[k])
    ensures d == w
  {
  }

  /** For a rule that renames nothing, the reference projection is the input
      restricted to the declared keys. */
  lemma {:induction false} WhitelistOfSame(fields: seq<FieldSpec>, input: Input)
    requires DistinctOutputs(fields)
    requires forall i | 0 <= i < |fields| :: fields[i].source == fields[i].output
    ensures Whitelist(fields, input) == Pick(input, Outputs(fields))
  {
    var w, p := Whitelist(fields, input), Pick(input, Outputs(fields));
    forall k | k in p ensures k in w && w[k] == p[k] {
      var i :| 0 <= i < |fields| && fields[i].output == k;
      assert fields[i].source == k;
    }
  }

  // ---------------------------------------------------------------------------
  // General properties of the filter.

  /** An unknown feature fails validation, whatever the user, input and target. */
  lemma UnknownFeatureFails(user: User, feature: Feature, input: Input, target: Option<Target>)
    requires feature !in ValidFeatures
    ensures FilterInput(user, feature, input, target) == ValidationError(feature)
  {
  }

  /** A user lacking the feature gets an empty object, whatever the input and target. */
  lemma MissingPermissionDenies(user: User, feature: Feature, input: Input, target: Option<Target>)
    requires feature in ValidFeatures && feature !in user.features
    ensures FilterInput(user, feature, input, target) == Ok(map[])
  {
  }

  /** A user who holds the feature but fails its ownership check gets an empty object. */
  lemma OwnershipFailureDenies(user: User, feature: Feature, input: Input, target: Option<Target>)
    requires feature in ValidFeatures && feature in user.features
    requires !OwnershipHolds(RuleOf(feature).ownership, user, target)
    ensures FilterInput(user, feature, input, target) == Ok(map[])
  {
  }

  /** The defined entries of the result: the reference projection when the user
      is authorized, nothing otherwise. */
  lemma {:induction false} FilterDefined(user: User, feature: Feature, input: Input, target: Option<Target>)
    requires feature in ValidFeatures
    ensures DistinctOutputs(RuleOf(feature).fields)
    ensures FilterInput(user, feature, input, target).Ok?
    ensures Defined(FilterInput(user, feature, input, target).output)
         == if Authorized(user, feature, target) then Whitelist(RuleOf(feature).fields, input) else map[]
  {
    PolicyCoversFeatures();
    PolicyWellFormed(feature);
    if Authorized(user, feature, target) {
      DefinedProject(RuleOf(feature).fields, input);
    } else {
      assert Defined(map[]) == map[];
    }
  }

  /** The model's result map is either empty or carries every declared key:
      there is no partial projection, and the model's map is empty exactly
      when the user is not authorized. Through `Defined`, which is all a caller
      comparing objects sees, a denial and an authorized no-op look the same
      (`NoOpLooksLikeDenial`). */
  lemma {:induction false} EmptyIffDenied(user: User, feature: Feature, input: Input, target: Option<Target>)
    requires feature in ValidFeatures
    ensures FilterInput(user, feature, input, target) == Ok(map[]) <==> !Authorized(user, feature, target)
  {
    PolicyCoversFeatures();
    PolicyWellFormed(feature);
    var fields := RuleOf(feature).fields;
    if Authorized(user, feature, target) {
      assert fields[0].output in Outputs(fields);
    }
  }

  /** An authorized request with an empty input has no defined entries, just
      like a denied one: from outside, denial and no-op are indistinguishable. */
  lemma NoOpLooksLikeDenial(user: User, feature: Feature, target: Option<Target>)
    requires feature in ValidFeatures
    ensures Defined(FilterInput(user, feature, map[], target).output) == map[]
  {
    FilterDefined(user, feature, map[], target);
  }

  /** Keys never come from outside the rule: every key of the result is a
      declared output, so input keys the rule does not name are dropped. */
  lemma OnlyDeclaredKeys(user: User, feature: Feature, input: Input, target: Option<Target>, k: string)
    requires FilterInput(user, feature, input, target).Ok?
    requires k in FilterInput(user, feature, input, target).output
    ensures exists i | 0 <= i < |RuleOf(feature).fields| :: RuleOf(feature).fields[i].output == k
  {
    assert k in Outputs(RuleOf(feature).fields);
  }

  /** A feature without an ownership check does not look at the target. */
  lemma TargetIgnoredWithoutOwnership(user: User, feature: Feature, input: Input, t1: Option<Target>, t2: Option<Target>)
    requires feature in ValidFeatures && RuleOf(feature).ownership == AnyTarget
    ensures FilterInput(user, feature, input, t1) == FilterInput(user, feature, input, t2)
  {
  }

  // ---------------------------------------------------------------------------
  // The observable result of each feature, for every input.

  /** The defined entries of a granted, rename-free feature: the input
      restricted to the rule's keys. */
  lemma {:induction false} GrantedSame(user: User, feature: Feature, input: Input, target: Option<Target>, keys: set<string>)
    requires feature in ValidFeatures && Authorized(user, feature, target)
    requires forall i | 0 <= i < |RuleOf(feature).fields| ::
               RuleOf(feature).fields[i].source == RuleOf(feature).fields[i].output
    requires Outputs(RuleOf(feature).fields) == keys
    ensures FilterInput(user, feature, input, target).Ok?
    ensures Defined(FilterInput(user, feature, input, target).output) == Pick(input, keys)
  {
    FilterDefined(user, feature, input, target);
    WhitelistOfSame(RuleOf(feature).fields, input);
  }

  lemma CreateSessionProjects(user: User, input: Input, target: Option<Target>)
    requires "create:session" in user.features
    ensures FilterInput(user, "create:session", input, target).Ok?
    ensures Defined(FilterInput(user, "create:session", input, target).output)
         == Pick(input, {"email", "password"})
  {
    var fields := RuleOf("create:session").fields;
    assert Outputs(fields) == {"email", "password"} by {
      assert fields[0].output == "email" && fields[1].output == "password";
    }
    GrantedSame(user, "create:session", input, target, {"email", "password"});
  }

  lemma CreateUserProjects(user: User, input: Input, target: Option<Target>)
    requires "create:user" in user.features
    ensures FilterInput(user, "create:user", input, target).Ok?
    ensures Defined(FilterInput(user, "create:user", input, target).output)
         == Pick(input, {"username", "email", "password"})
  {
    var fields := RuleOf("create:user").fields;
    assert Outputs(fields) == {"username", "email", "password"} by {
      assert fields[0].output == "username" && fields[1].output == "email" && fields[2].output == "password";
    }
    GrantedSame(user, "create:user", input, target, {"username", "email", "password"});
  }

  lemma UpdateUserProjects(user: User, input: Input, target: Target)
    requires "update:user" in user.features && target.id == Some(user.id)
    ensures FilterInput(user, "update:user", input, Some(target)).Ok?
    ensures Defined(FilterInput(user, "update:user", input, Some(target)).output)
         == Pick(input, {"username", "email", "password", "description", "notifications"})
  {
    var fields := RuleOf("update:user").fields;
    assert Outputs(fields) == {"username", "email", "password", "description", "notifications"} by {
      assert fields[0].output == "username" && fields[1].output == "email" && fields[2].output == "password";
      assert fields[3].output == "description" && fields[4].output == "notifications";
    }
    GrantedSame(user, "update:user", input, Some(target),
                {"username", "email", "password", "description", "notifications"});
  }

  /** Holding `update:user` is not enough to update somebody else. */
  lemma UpdateUserRejectsOtherTarget(user: User, input: Input, target: Target)
    requires "update:user" in user.features && target.id != Some(user.id)
    ensures FilterInput(user, "update:user", input, Some(target)) == Ok(map[])
  {
  }

  lemma UpdateUserOthersProjects(user: User, input: Input, target: Option<Target>)
    requires "update:user:others" in user.features
    ensures FilterInput(user, "update:user:others", input, target).Ok?
    ensures Defined(FilterInput(user, "update:user:others", input, target).output)
         == Pick(input, {"description"})
  {
    var fields := RuleOf("update:user:others").fields;
    assert Outputs(fields) == {"description"} by {
      assert fields[0].output == "description";
    }
    GrantedSame(user, "update:user:others", input, target, {"description"});
  }

  lemma BanUserProjects(user: User, input: Input, target: Option<Target>)
    requires "ban:user" in user.features
    ensures FilterInput(user, "ban:user", input, target).Ok?
    ensures Defined(FilterInput(user, "ban:user", input, target).output) == Pick(input, {"ban_type"})
  {
    var fields := RuleOf("ban:user").fields;
    assert Outputs(fields) == {"ban_type"} by {
      assert fields[0].output == "ban_type";
    }
    GrantedSame(user, "ban:user", input, target, {"ban_type"});
  }

  /** The one renaming rule: the input's `token_id` comes out as `tokenId`. */
  lemma ReadActivationTokenRenames(user: User, input: Input, target: Option<Target>)
    requires "read:activation_token" in user.features
    ensures FilterInput(user, "read:activation_token", input, target).Ok?
    ensures Defined(FilterInput(user, "read:activation_token", input, target).output)
         == if "token_id" in input then map["tokenId" := input["token_id"]] else map[]
  {
    var fields := RuleOf("read:activation_token").fields;
    FilterDefined(user, "read:activation_token", input, target);
    var w := Whitelist(fields, input);
    if "token_id" in input {
      assert w == map["tokenId" := input["token_id"]] by {
        assert fields[0] == FieldSpec("token_id", "tokenId");
        assert w["tokenId"] == input["token_id"];
      }
    } else {
      assert w == map[];
    }
  }

  lemma CreateRootContentProjects(user: User, input: Input, target: Option<Target>)
    requires "create:content:text_root" in user.features
    ensures FilterInput(user, "create:content:text_root", input, target).Ok?
    ensures Defined(FilterInput(user, "create:content:text_root", input, target).output)
         == Pick(input, {"slug", "title", "body", "status", "type", "source_url"})
  {
    var fields := RuleOf("create:content:text_root").fields;
    assert Outputs(fields) == {"slug", "title", "body", "status", "type", "source_url"} by {
      assert fields[0].output == "slug" && fields[1].output == "title" && fields[2].output == "body";
      assert fields[3].output == "status" && fields[4].output == "type" && fields[5].output == "source_url";
    }
    GrantedSame(user, "create:content:text_root", input, target,
                {"slug", "title", "body", "status", "type", "source_url"});
  }

  lemma CreateChildContentProjects(user: User, input: Input, target: Option<Target>)
    requires "create:content:text_child" in user.features
    ensures FilterInput(user, "create:content:text_child", input, target).Ok?
    ensures Defined(FilterInput(user, "create:content:text_child", input, target).output)
         == Pick(input, {"parent_id", "slug", "title", "body", "status", "source_url"})
  {
    var fields := RuleOf("create:content:text_child").fields;
    assert Outputs(fields) == {"parent_id", "slug", "title", "body", "status", "source_url"} by {
      assert fields[0].output == "parent_id" && fields[1].output == "slug" && fields[2].output == "title";
      assert fields[3].output == "body" && fields[4].output == "status" && fields[5].output == "source_url";
    }
    GrantedSame(user, "create:content:text_child", input, target,
                {"parent_id", "slug", "title", "body", "status", "source_url"});
  }

  lemma UpdateContentProjects(user: User, input: Input, target: Target)
    requires "update:content" in user.features && target.ownerId == Some(user.id)
    ensures FilterInput(user, "update:content", input, Some(target)).Ok?
    ensures Defined(FilterInput(user, "update:content", input, Some(target)).output)
         == Pick(input, {"parent_id", "slug", "title", "body", "status", "source_url"})
  {
    var fields := RuleOf("update:content").fields;
    assert Outputs(fields) == {"parent_id", "slug", "title", "body", "status", "source_url"} by {
      assert fields[0].output == "parent_id" && fields[1].output == "slug" && fields[2].output == "title";
      assert fields[3].output == "body" && fields[4].output == "status" && fields[5].output == "source_url";
    }
    GrantedSame(user, "update:content", input, Some(target),
                {"parent_id", "slug", "title", "body", "status", "source_url"});
  }

  /** Holding `update:content` is not enough to update somebody else's content. */
  lemma UpdateContentRejectsOtherOwner(user: User, input: Input, target: Target)
    requires "update:content" in user.features && target.ownerId != Some(user.id)
    ensures FilterInput(user, "update:content", input, Some(target)) == Ok(map[])
  {
  }

  /** A feature with an ownership check denies a request that names no target
      (the model fails closed here). */
  lemma MissingTargetDenied(user: User, feature: Feature, input: Input)
    requires feature in ValidFeatures && RuleOf(feature).ownership != AnyTarget
    ensures FilterInput(user, feature, input, None) == Ok(map[])
  {
  }
}
