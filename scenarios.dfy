/**
 * Client code for the router, in the situations its test suite sets up
 * (tests/test_handler.py): each method builds a router and a message and
 * states what `handle` and `validate_handlers` do. The methods are proved
 * from the router's contracts; two small lemmas (`TwoSubjectKeys`,
 * `OnlyDeletedMissing`) work out the handler map and the validation filter
 * for two concrete names.
 */
module HandlerScenarios {
  import opened Handler

  /** A mapped subject whose handler method is missing falls back with `not_implemented` and is naked once. */
  method MissingMethodScenario(sep: char) returns (outcome: Outcome, acks: nat, naks: nat)
    requires IsSeparator(sep)
    ensures outcome == FellBack(NotImplemented)
    ensures acks == 0 && naks == 1
  {
    var subject := "orders" + [sep] + "created";
    NamespaceDroppedCreated("orders", sep);
    CreatedNotWildcard("orders", sep);
    var handler := new ConsumerHandler([subject], map[]);
    var msg := new Msg(subject);
    outcome := handler.Handle(msg);
    acks, naks := msg.acks, msg.naks;
  }

  /** A subject outside the list falls back with `unhandled_subject` and is naked once. */
  method UnhandledSubjectScenario(sep: char) returns (outcome: Outcome, acks: nat, naks: nat)
    requires IsSeparator(sep)
    ensures outcome == FellBack(UnhandledSubject)
    ensures acks == 0 && naks == 1
  {
    var listed, other := "orders" + [sep] + "created", "users" + [sep] + "created";
    var handler := new ConsumerHandler([listed], map["handle_created" := AsyncMethod(Returns)]);
    var msg := new Msg(other);
    assert listed[0] != other[0];
    outcome := handler.Handle(msg);
    acks, naks := msg.acks, msg.naks;
  }

  /** A handler's exception propagates unchanged, and the message is neither acked nor naked. */
  method RaisingHandlerScenario(sep: char) returns (outcome: Outcome, acks: nat, naks: nat)
    requires IsSeparator(sep)
    ensures outcome == Raised("handle_created", ApplicationError("Test error"))
    ensures acks == 0 && naks == 0
  {
    var subject := "orders" + [sep] + "created";
    NamespaceDroppedCreated("orders", sep);
    CreatedNotWildcard("orders", sep);
    var handler := new ConsumerHandler([subject], map["handle_created" := AsyncMethod(Raises("Test error"))]);
    var msg := new Msg(subject);
    outcome := handler.Handle(msg);
    acks, naks := msg.acks, msg.naks;
  }

  /** A wildcard subject in the list has no mapping and falls back with `no_mapping`. */
  method WildcardScenario() returns (outcome: Outcome, naks: nat)
    ensures outcome == FellBack(NoMapping)
    ensures naks == 1
  {
    var handler := new ConsumerHandler(["orders.*"], map[]);
    var msg := new Msg("orders.*");
    assert "orders.*"[7] == '*';
    outcome := handler.Handle(msg);
    naks := msg.naks;
  }

  /**
   * Three subjects deriving `handle_created` log two collisions, and all
   * three stay keys mapped to `handle_created`.
   */
  method CollisionScenario(a: string, b: string, c: string) returns (warnings: nat, names: seq<string>)
    requires forall s :: s in [a, b, c] ==> !IsWildcard(s) && HandlerName(s) == "handle_created"
    ensures warnings == 2
    ensures names == ["handle_created", "handle_created", "handle_created"]
  {
    var subjects := [a, b, c];
    SharedNameCollisions(subjects, "handle_created");
    var handler := new ConsumerHandler(subjects, map[]);
    warnings := |handler.collisionLog|;
    CollisionKeepsBoth(subjects, a, b);
    CollisionKeepsBoth(subjects, b, c);
    names := [handler.handlerMap.names[a], handler.handlerMap.names[b], handler.handlerMap.names[c]];
  }

  /** The collision test's own subjects: "orders.created", "users-created" and "items_created" in any notation. */
  method CollisionTest(sep1: char, sep2: char, sep3: char) returns (warnings: nat)
    requires IsSeparator(sep1) && IsSeparator(sep2) && IsSeparator(sep3)
    ensures warnings == 2
  {
    NamespaceDroppedCreated("orders", sep1);
    NamespaceDroppedCreated("users", sep2);
    NamespaceDroppedCreated("items", sep3);
    CreatedNotWildcard("orders", sep1);
    CreatedNotWildcard("users", sep2);
    CreatedNotWildcard("items", sep3);
    var names;
    warnings, names := CollisionScenario("orders" + [sep1] + "created", "users" + [sep2] + "created", "items" + [sep3] + "created");
  }

  /**
   * Validation of a router for "orders.created" and "orders.deleted" that
   * implements only `handle_created` reports `handle_deleted` and nothing else.
   */
  method ValidationScenario(created: string, deleted: string) returns (missing: seq<string>)
    requires !IsWildcard(created) && HandlerName(created) == "handle_created"
    requires !IsWildcard(deleted) && HandlerName(deleted) == "handle_deleted"
    ensures missing == ["handle_deleted"]
  {
    var subjects := [created, deleted];
    var handler := new ConsumerHandler(subjects, map["handle_created" := AsyncMethod(Returns)]);
    TwoSubjectKeys(created, deleted);
    assert handler.HandlerMethods() == ["handle_created", "handle_deleted"];
    OnlyDeletedMissing(handler);
    missing := handler.ValidateHandlers();
  }

  /** With only `handle_created` defined, of the two names only `handle_deleted` is unimplemented. */
  lemma OnlyDeletedMissing(handler: ConsumerHandler)
    requires handler.attributes == map["handle_created" := AsyncMethod(Returns)]
    ensures handler.Unimplemented(["handle_created", "handle_deleted"]) == ["handle_deleted"]
  {
    var names := ["handle_created", "handle_deleted"];
    assert names[..1] == ["handle_created"] && names[..1][..0] == [];
    assert "handle_deleted" != "handle_created";
  }

  /** The validation test's own subjects, "orders.created" and "orders.deleted", in any notation. */
  method ValidationTest(sep: char) returns (missing: seq<string>)
    requires IsSeparator(sep)
    ensures missing == ["handle_deleted"]
  {
    var namespace, created, deleted := "orders", "created", "deleted";
    assert forall i :: 0 <= i < |namespace| ==> !IsSeparator(namespace[i]) && namespace[i] != '*' && namespace[i] != '>';
    assert forall i :: 0 <= i < |created| ==> !IsSeparator(created[i]) && created[i] != '*' && created[i] != '>';
    assert forall i :: 0 <= i < |deleted| ==> !IsSeparator(deleted[i]) && deleted[i] != '*' && deleted[i] != '>';
    TwoTokenSubject(namespace, sep, created);
    TwoTokenSubject(namespace, sep, deleted);
    missing := ValidationScenario(namespace + [sep] + created, namespace + [sep] + deleted);
  }

  /** A two-token subject without `*` or `>` is routed by name, to "handle_" + its second token. */
  lemma TwoTokenSubject(namespace: string, sep: char, token: string)
    requires forall i :: 0 <= i < |namespace| ==> !IsSeparator(namespace[i]) && namespace[i] != '*' && namespace[i] != '>'
    requires forall i :: 0 <= i < |token| ==> !IsSeparator(token[i]) && token[i] != '*' && token[i] != '>'
    requires IsSeparator(sep)
    ensures !IsWildcard(namespace + [sep] + token)
    ensures HandlerName(namespace + [sep] + token) == "handle_" + token
  {
    TwoTokenName(namespace, sep, token);
    var subject := namespace + [sep] + token;
    forall i | 0 <= i < |subject| ensures subject[i] != '*' && subject[i] != '>' {
      if i < |namespace| {
        assert subject[i] == namespace[i];
      } else if i > |namespace| {
        assert subject[i] == token[i - |namespace| - 1];
      }
    }
  }

  /** Two distinct non-wildcard subjects become the map's keys in list order. */
  lemma TwoSubjectKeys(a: string, b: string)
    requires !IsWildcard(a) && !IsWildcard(b) && a != b
    ensures Build([a, b]).handlerMap.keys == [a, b]
  {
    assert [a, b][..1] == [a] && [a][..0] == [];
    assert Build([a]).handlerMap.keys == [a];
  }

  /** Subjects that all derive one name log one warning for each but the first. */
  lemma SharedNameCollisions(subjects: seq<string>, name: string)
    requires subjects != []
    requires forall s :: s in subjects ==> !IsWildcard(s) && HandlerName(s) == name
    ensures |Build(subjects).warnings| == |subjects| - 1
  {
    OneSharedName(subjects, name);
    MappedCountNoWildcard(subjects);
    WarningCount(subjects);
  }

  /**
   * "<namespace>.created", in any of the three notations, is served by
   * `handle_created`, whatever the namespace; the collision test uses
   * "orders.created", "users-created" and "items_created".
   */
  lemma NamespaceDroppedCreated(namespace: string, sep: char)
    requires forall ch :: ch in namespace ==> !IsSeparator(ch)
    requires IsSeparator(sep)
    ensures HandlerName(namespace + [sep] + "created") == "handle_created"
  {
    var token := "created";
    assert forall i :: 0 <= i < |token| ==> !IsSeparator(token[i]);
    assert forall i :: 0 <= i < |namespace| ==> !IsSeparator(namespace[i]) by {
      forall i | 0 <= i < |namespace| ensures !IsSeparator(namespace[i]) {
        assert namespace[i] in namespace;
      }
    }
    TwoTokenName(namespace, sep, token);
  }

  /** Without wildcards, every entry of the list is mapped. */
  lemma {:induction false} MappedCountNoWildcard(subjects: seq<string>)
    requires forall s :: s in subjects ==> !IsWildcard(s)
    ensures MappedCount(subjects) == |subjects|
  {
    if subjects != [] {
      var p := subjects[..|subjects| - 1];
      assert forall s :: s in p ==> s in subjects;
      assert subjects[|subjects| - 1] in subjects;
      MappedCountNoWildcard(p);
    }
  }

  /** A non-empty list of non-wildcard subjects that all derive `name` derives nothing else. */
  lemma OneSharedName(subjects: seq<string>, name: string)
    requires subjects != []
    requires forall s :: s in subjects ==> !IsWildcard(s) && HandlerName(s) == name
    ensures DerivedNames(subjects) == {name}
  {
    assert subjects[0] in subjects;
  }

  /** "<namespace>.created" is not a wildcard when the namespace holds neither `*` nor `>`. */
  lemma CreatedNotWildcard(namespace: string, sep: char)
    requires '*' !in namespace && '>' !in namespace
    requires IsSeparator(sep)
    ensures !IsWildcard(namespace + [sep] + "created")
  {
    var rest := [sep] + "created";
    assert '*' !in rest && '>' !in rest by {
      assert forall i :: 0 <= i < |rest| ==> rest[i] != '*' && rest[i] != '>';
    }
    assert namespace + [sep] + "created" == namespace + rest;
  }
}
