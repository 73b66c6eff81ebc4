/** The unit cases of `filterInput`, one lemma each, stated over the defined
    entries of the result (a deep equality ignores properties that are
    `undefined`). */
module AuthorizationCases {
  import opened Wrappers
  import opened Authorization

  /** The test user: identity `user123` unless given, holding the listed features. */
  function MockUser(features: set<Feature>, id: string := "user123"): User {
    User(id, features)
  }

  const SessionInput: Input := map["email" := "test@tabnews.com", "password" := "123456"]
  const UserInput: Input := map["username" := "ana", "email" := "a@a.com", "password" := "123"]
  const RootInput: Input := map["slug" := "hi", "title" := "Test", "body" := "Content"]
  const ChildInput: Input := map["parent_id" := "p1", "slug" := "child"]

  lemma CreateSessionGranted()
    ensures var r := FilterInput(MockUser({"create:session"}), "create:session", SessionInput, None);
            r.Ok? && Defined(r.output) == SessionInput
  {
    CreateSessionProjects(MockUser({"create:session"}), SessionInput, None);
    PickAll(SessionInput, {"email", "password"});
  }

  lemma CreateSessionDenied()
    ensures FilterInput(MockUser({}), "create:session", SessionInput, None) == Ok(map[])
  {
  }

  lemma InvalidFeatureRejected()
    ensures FilterInput(MockUser({"create:session"}), "invalid_feature", SessionInput, None).ValidationError?
  {
  }

  lemma CreateUserGranted()
    ensures var r := FilterInput(MockUser({"create:user"}), "create:user", UserInput, None);
            r.Ok? && Defined(r.output) == UserInput
  {
    CreateUserProjects(MockUser({"create:user"}), UserInput, None);
    PickAll(UserInput, {"username", "email", "password"});
  }

  lemma CreateUserDenied()
    ensures FilterInput(MockUser({}), "create:user", UserInput, None) == Ok(map[])
  {
  }

  lemma UpdateUserOwnTarget()
    ensures var r := FilterInput(MockUser({"update:user"}), "update:user", map["username" := "ana"],
                                 Some(Target(Some("user123"), None)));
            r.Ok? && Defined(r.output) == map["username" := "ana"]
  {
    var input: Input := map["username" := "ana"];
    UpdateUserProjects(MockUser({"update:user"}), input, Target(Some("user123"), None));
    PickAll(input, {"username", "email", "password", "description", "notifications"});
  }

  lemma UpdateUserOtherTarget()
    ensures FilterInput(MockUser({"update:user"}), "update:user", map["username" := "ana"],
                        Some(Target(Some("other_user"), None))) == Ok(map[])
  {
  }

  lemma UpdateUserOthersGranted()
    ensures var r := FilterInput(MockUser({"update:user:others"}), "update:user:others",
                                 map["description" := "test"], None);
            r.Ok? && Defined(r.output) == map["description" := "test"]
  {
    var input: Input := map["description" := "test"];
    UpdateUserOthersProjects(MockUser({"update:user:others"}), input, None);
    PickAll(input, {"description"});
  }

  lemma UpdateUserOthersDenied()
    ensures FilterInput(MockUser({}), "update:user:others", map["description" := "test"], None) == Ok(map[])
  {
  }

  lemma BanUserGranted()
    ensures var r := FilterInput(MockUser({"ban:user"}), "ban:user", map["ban_type" := "temp"], None);
            r.Ok? && Defined(r.output) == map["ban_type" := "temp"]
  {
    var input: Input := map["ban_type" := "temp"];
    BanUserProjects(MockUser({"ban:user"}), input, None);
    PickAll(input, {"ban_type"});
  }

  lemma BanUserDenied()
    ensures FilterInput(MockUser({}), "ban:user", map["ban_type" := "temp"], None) == Ok(map[])
  {
  }

  lemma ReadTokenGranted()
    ensures var r := FilterInput(MockUser({"read:activation_token"}), "read:activation_token",
                                 map["token_id" := "xyz"], None);
            r.Ok? && Defined(r.output) == map["tokenId" := "xyz"]
  {
    ReadActivationTokenRenames(MockUser({"read:activation_token"}), map["token_id" := "xyz"], None);
  }

  lemma ReadTokenDenied()
    ensures FilterInput(MockUser({}), "read:activation_token", map["token_id" := "xyz"], None) == Ok(map[])
  {
  }

  lemma CreateRootGranted()
    ensures var r := FilterInput(MockUser({"create:content:text_root"}), "create:content:text_root",
                                 RootInput, None);
            r.Ok? && Defined(r.output) == RootInput
  {
    CreateRootContentProjects(MockUser({"create:content:text_root"}), RootInput, None);
    PickAll(RootInput, {"slug", "title", "body", "status", "type", "source_url"});
  }

  lemma CreateRootDenied()
    ensures FilterInput(MockUser({}), "create:content:text_root", RootInput, None) == Ok(map[])
  {
  }

  lemma CreateChildGranted()
    ensures var r := FilterInput(MockUser({"create:content:text_child"}), "create:content:text_child",
                                 ChildInput, None);
            r.Ok? && Defined(r.output) == ChildInput
  {
    CreateChildContentProjects(MockUser({"create:content:text_child"}), ChildInput, None);
    PickAll(ChildInput, {"parent_id", "slug", "title", "body", "status", "source_url"});
  }

  lemma CreateChildDenied()
    ensures FilterInput(MockUser({}), "create:content:text_child", ChildInput, None) == Ok(map[])
  {
  }

  lemma UpdateContentOwnTarget()
    ensures var r := FilterInput(MockUser({"update:content"}), "update:content", map["title" := "Test"],
                                 Some(Target(None, Some("user123"))));
            r.Ok? && Defined(r.output) == map["title" := "Test"]
  {
    var input: Input := map["title" := "Test"];
    UpdateContentProjects(MockUser({"update:content"}), input, Target(None, Some("user123")));
    PickAll(input, {"parent_id", "slug", "title", "body", "status", "source_url"});
  }

  lemma UpdateContentOtherTarget()
    ensures FilterInput(MockUser({"update:content"}), "update:content", map["title" := "Test"],
                        Some(Target(None, Some("other_user")))) == Ok(map[])
  {
  }
}
