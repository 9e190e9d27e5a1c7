/**
 * The subject router `ConsumerHandler` (src/nats_consumer/handler.py).
 *
 * At construction the router turns its list of subjects into a handler map
 * from each non-wildcard subject to the name of the handler method that
 * serves it; `Handle` then routes a message by its subject to that method,
 * or to the fallback, which negatively acknowledges ("naks") the message.
 */
module Handler {
  import opened Wrappers
  import opened PyString

  // ---------------------------------------------------------------------
  // Handler-name derivation
  // ---------------------------------------------------------------------

  /** A subject holding `*` or `>` is a wildcard and is never routed by name. */
  predicate IsWildcard(subject: string): (w: bool)
    ensures w <==> exists i :: 0 <= i < |subject| && (subject[i] == '*' || subject[i] == '>')
  {
    '*' in subject || '>' in subject
  }

  /** The three characters a subject may use to separate its tokens. */
  predicate IsSeparator(c: char)
  {
    c == '.' || c == '-' || c == '_'
  }

  /** `subject.replace('.', '_').replace('-', '_')`: every separator becomes `_`. */
  function Normalize(subject: string): (n: string)
    ensures |n| == |subject|
    ensures forall i :: 0 <= i < |subject| ==> n[i] == (if IsSeparator(subject[i]) then '_' else subject[i])
  {
    ReplaceChar(ReplaceChar(subject, '.', '_'), '-', '_')
  }

  /**
   * The handler-method name for a (non-wildcard) subject: the normalized
   * subject is split on `_`; with two or more tokens the first is dropped as
   * a namespace and the rest are joined with `_`, a single token is kept.
   */
  function HandlerName(subject: string): (name: string)
    ensures "handle_" <= name && name != ""
  {
    var parts := Split(Normalize(subject), '_');
    if |parts| >= 2 then "handle_" + Join(parts[1..], '_')
    else "handle_" + parts[0]
  }

  /** The namespace token is dropped: what follows the first separator, normalized, names the handler. */
  lemma NamespaceDropped(namespace: string, sep: char, rest: string)
    requires forall c :: c in namespace ==> !IsSeparator(c)
    requires IsSeparator(sep)
    ensures HandlerName(namespace + [sep] + rest) == "handle_" + Normalize(rest)
  {
    var head := Normalize(namespace);
    NormalizeAround(namespace, sep, rest);
    NormalizedNamespace(namespace);
    SplitAtSeparator(head, Normalize(rest), '_');
  }

  /** Normalizing distributes over concatenation, turning the separator in the middle into `_`. */
  lemma NormalizeAround(a: string, sep: char, b: string)
    requires IsSeparator(sep)
    ensures Normalize(a + [sep] + b) == Normalize(a) + ['_'] + Normalize(b)
  {
  }

  /** A token without separators normalizes to one without `_`. */
  lemma NormalizedNamespace(namespace: string)
    requires forall c :: c in namespace ==> !IsSeparator(c)
    ensures '_' !in Normalize(namespace)
  {
    var head := Normalize(namespace);
    forall i | 0 <= i < |head| ensures head[i] != '_' {
      assert namespace[i] in namespace;
    }
  }

  /** A subject with no separator at all is served by "handle_" + the subject itself. */
  lemma SingleTokenName(subject: string)
    requires forall c :: c in subject ==> !IsSeparator(c)
    ensures HandlerName(subject) == "handle_" + subject
  {
    var n := Normalize(subject);
    assert n == subject;
    SplitNoSeparator(n, '_');
  }

  /** `.`, `-` and `_` are interchangeable: subjects differing only in which separator they use share a handler. */
  lemma SeparatorsInterchangeable(s1: string, s2: string)
    requires |s1| == |s2|
    requires forall i :: 0 <= i < |s1| ==> s1[i] == s2[i] || (IsSeparator(s1[i]) && IsSeparator(s2[i]))
    ensures HandlerName(s1) == HandlerName(s2)
  {
    assert Normalize(s1) == Normalize(s2);
  }

  /** A two-token subject is served by "handle_" + its second token, whichever separator joins them. */
  lemma TwoTokenName(namespace: string, sep: char, token: string)
    requires forall i :: 0 <= i < |namespace| ==> !IsSeparator(namespace[i])
    requires forall i :: 0 <= i < |token| ==> !IsSeparator(token[i])
    requires IsSeparator(sep)
    ensures HandlerName(namespace + [sep] + token) == "handle_" + token
  {
    assert Normalize(token) == token;
    NamespaceDropped(namespace, sep, token);
  }

  /** "orders.created", "orders-created" and "orders_created" are all served by `handle_created`. */
  lemma DocumentedNotations(sep: char)
    requires IsSeparator(sep)
    ensures HandlerName("orders" + [sep] + "created") == "handle_created"
  {
    var namespace, token := "orders", "created";
    assert forall i :: 0 <= i < |namespace| ==> !IsSeparator(namespace[i]);
    assert forall i :: 0 <= i < |token| ==> !IsSeparator(token[i]);
    TwoTokenName(namespace, sep, token);
  }

  /** A multi-level subject keeps every token after the namespace, joined with `_`. */
  lemma MultiLevelName(namespace: string, sep1: char, middle: string, sep2: char, last: string)
    requires forall i :: 0 <= i < |namespace| ==> !IsSeparator(namespace[i])
    requires forall i :: 0 <= i < |middle| ==> !IsSeparator(middle[i])
    requires forall i :: 0 <= i < |last| ==> !IsSeparator(last[i])
    requires IsSeparator(sep1) && IsSeparator(sep2)
    ensures HandlerName(namespace + [sep1] + middle + [sep2] + last) == "handle_" + middle + ['_'] + last
  {
    var rest := middle + [sep2] + last;
    NormalizeAround(middle, sep2, last);
    NormalizeUnchanged(middle);
    NormalizeUnchanged(last);
    ConcatAssoc(namespace + [sep1], middle, [sep2], last);
    assert forall c :: c in namespace ==> !IsSeparator(c);
    NamespaceDropped(namespace, sep1, rest);
    ConcatAssoc("handle_", middle, ['_'], last);
  }

  /** Regrouping a concatenation of four sequences. */
  lemma ConcatAssoc<T>(a: seq<T>, b: seq<T>, c: seq<T>, d: seq<T>)
    ensures a + b + c + d == a + (b + c + d)
  {
  }

  /** A token without separators is its own normal form. */
  lemma NormalizeUnchanged(token: string)
    requires forall i :: 0 <= i < |token| ==> !IsSeparator(token[i])
    ensures Normalize(token) == token
  {
  }

  /** The documented "orders.old.deleted" is served by `handle_old_deleted`, in any notation. */
  lemma DocumentedMultiLevel(sep1: char, sep2: char)
    requires IsSeparator(sep1) && IsSeparator(sep2)
    ensures HandlerName("orders" + [sep1] + "old" + [sep2] + "deleted") == "handle_old_deleted"
  {
    var namespace, middle, last := "orders", "old", "deleted";
    assert forall i :: 0 <= i < |namespace| ==> !IsSeparator(namespace[i]);
    assert forall i :: 0 <= i < |middle| ==> !IsSeparator(middle[i]);
    assert forall i :: 0 <= i < |last| ==> !IsSeparator(last[i]);
    MultiLevelName(namespace, sep1, middle, sep2, last);
  }

  /** Python's split keeps empty tokens: "a..b" gives `handle__b` and "a." gives `handle_`. */
  lemma EmptyTokensKept(sep: char)
    requires IsSeparator(sep)
    ensures HandlerName("a" + [sep] + [sep] + "b") == "handle__b"
    ensures HandlerName("a" + [sep]) == "handle_"
  {
    var rest := [sep] + "b";
    assert Normalize(rest) == "_b";
    assert "a" + [sep] + [sep] + "b" == "a" + [sep] + rest;
    NamespaceDropped("a", sep, rest);
    assert Normalize("") == "";
    assert "a" + [sep] == "a" + [sep] + "";
    NamespaceDropped("a", sep, "");
  }

  // ---------------------------------------------------------------------
  // Building the handler map (`_build_handler_map`)
  // ---------------------------------------------------------------------

  /**
   * A Python dict from subject to handler-method name: `names` holds the
   * entries and `keys` their insertion order, which `values()` and
   * `items()` follow.
   */
  datatype HandlerMap = HandlerMap(keys: seq<string>, names: map<string, string>)
  {
    ghost predicate Valid()
    {
      && (forall i, j :: 0 <= i < j < |keys| ==> keys[i] != keys[j])
      && (forall k :: k in names <==> k in keys)
    }

    /** `d[k] = v`: a new key is appended, an existing key keeps its place. */
    function Put(k: string, v: string): (m: HandlerMap)
      ensures Valid() ==> m.Valid()
      ensures m.names == names[k := v]
      ensures k in names ==> m.keys == keys
      ensures k !in names ==> m.keys == keys + [k]
    {
      if k in names then HandlerMap(keys, names[k := v])
      else HandlerMap(keys + [k], names[k := v])
    }

    /** `list(d.values())`: one value per key, in key order. */
    function Values(): (vs: seq<string>)
      requires Valid()
      ensures |vs| == |keys|
      ensures forall i :: 0 <= i < |keys| ==> vs[i] == names[keys[i]]
    {
      seq(|keys|, i requires 0 <= i < |keys| => names[keys[i]])
    }
  }

  /** A logged collision: `subject` derives the same name as the earlier `existing`. */
  datatype Collision = Collision(subject: string, existing: string, name: string)

  /**
   * The loop state of `_build_handler_map`: the handler map, the table
   * `method_collisions` from each name to the first subject that produced
   * it, and the collision warnings logged so far.
   */
  datatype BuildState = BuildState(handlerMap: HandlerMap, methodCollisions: map<string, string>, warnings: seq<Collision>)

  /** One iteration of the loop, for one subject. */
  function Step(st: BuildState, subject: string): (r: BuildState)
    ensures IsWildcard(subject) ==> r == st
    ensures !IsWildcard(subject) ==> subject in r.handlerMap.names && r.handlerMap.names[subject] == HandlerName(subject)
    ensures !IsWildcard(subject) ==> HandlerName(subject) in r.methodCollisions
    ensures st.warnings <= r.warnings && |r.warnings| <= |st.warnings| + 1
  {
    if IsWildcard(subject) then st
    else
      var name := HandlerName(subject);
      var st' :=
        if name in st.methodCollisions then
          st.(warnings := st.warnings + [Collision(subject, st.methodCollisions[name], name)])
        else
          st.(methodCollisions := st.methodCollisions[name := subject]);
      st'.(handlerMap := st'.handlerMap.Put(subject, name))
  }

  /** The state after the loop has run over all of `subjects`, in order. */
  function Build(subjects: seq<string>): (r: BuildState)
    ensures |r.warnings| <= |subjects|
  {
    if subjects == [] then BuildState(HandlerMap([], map[]), map[], [])
    else Step(Build(subjects[..|subjects| - 1]), subjects[|subjects| - 1])
  }

  /** Every handler-method name some non-wildcard subject of the list derives. */
  ghost function DerivedNames(subjects: seq<string>): set<string>
  {
    set s | s in subjects && !IsWildcard(s) :: HandlerName(s)
  }

  /** How many entries of the list (duplicates included) are non-wildcard subjects. */
  function MappedCount(subjects: seq<string>): nat
  {
    if subjects == [] then 0
    else
      var last := subjects[|subjects| - 1];
      MappedCount(subjects[..|subjects| - 1]) + (if IsWildcard(last) then 0 else 1)
  }

  /** The first non-wildcard subject of the list that derives `name`, if any. */
  function FirstWithName(subjects: seq<string>, name: string): Option<string>
  {
    if subjects == [] then None
    else if !IsWildcard(subjects[0]) && HandlerName(subjects[0]) == name then Some(subjects[0])
    else FirstWithName(subjects[1..], name)
  }

  lemma {:induction false} FirstWithNameAppend(p: seq<string>, x: string, name: string)
    ensures FirstWithName(p + [x], name) ==
      if FirstWithName(p, name).Some? then FirstWithName(p, name)
      else if !IsWildcard(x) && HandlerName(x) == name then Some(x)
      else None
  {
    if p == [] {
      assert p + [x] == [x];
      assert [x][1..] == [];
    } else {
      assert (p + [x])[0] == p[0] && (p + [x])[1..] == p[1..] + [x];
      FirstWithNameAppend(p[1..], x, name);
    }
  }

  lemma {:induction false} FirstWithNameExists(subjects: seq<string>, name: string)
    ensures FirstWithName(subjects, name).Some? <==> name in DerivedNames(subjects)
  {
    if subjects != [] {
      FirstWithNameExists(subjects[1..], name);
      if !IsWildcard(subjects[0]) && HandlerName(subjects[0]) == name {
        assert subjects[0] in subjects;
      } else {
        forall s | s in subjects[1..] ensures s in subjects { }
        forall s | s in subjects && !IsWildcard(s) && HandlerName(s) == name ensures s in subjects[1..] {
          var i :| 0 <= i < |subjects| && subjects[i] == s;
          assert i != 0;
          assert subjects[1..][i - 1] == s;
        }
      }
    }
  }

  /** Splitting off the last subject of a non-empty list. */
  lemma Snoc(subjects: seq<string>)
    requires subjects != []
    ensures subjects == subjects[..|subjects| - 1] + [subjects[|subjects| - 1]]
    ensures Build(subjects) == Step(Build(subjects[..|subjects| - 1]), subjects[|subjects| - 1])
    ensures forall s :: s in subjects <==> s in subjects[..|subjects| - 1] || s == subjects[|subjects| - 1]
  {
    SnocMembers(subjects);
  }

  /** A member of a non-empty list is a member of its prefix or its last element. */
  lemma SnocMembers<T>(xs: seq<T>)
    requires xs != []
    ensures xs == xs[..|xs| - 1] + [xs[|xs| - 1]]
    ensures forall s :: s in xs <==> s in xs[..|xs| - 1] || s == xs[|xs| - 1]
  {
    assert xs == xs[..|xs| - 1] + [xs[|xs| - 1]];
  }

  /**
   * The handler map built from any list is a well-formed dict. A narrow
   * view of `BuildMapKeys` that keeps the solver's context small in
   * `ValidateHandlers` and `BuildKeysSnoc`.
   */
  lemma BuildMapValid(subjects: seq<string>)
    ensures Build(subjects).handlerMap.Valid()
  {
    BuildMapKeys(subjects);
  }

  /**
   * The keys of the handler map are the non-wildcard subjects of the list.
   * A narrow view of `BuildMapKeys`, for the same reason as `BuildMapValid`.
   */
  lemma BuildMapDomain(subjects: seq<string>)
    ensures Build(subjects).handlerMap.Valid()
    ensures forall s :: s in Build(subjects).handlerMap.names <==> s in subjects && !IsWildcard(s)
  {
    BuildMapKeys(subjects);
  }

  /**
   * The handler map has exactly the non-wildcard subjects of the list as
   * keys, each once, and maps each to the name derived from it alone.
   */
  lemma {:induction false} BuildMapKeys(subjects: seq<string>)
    ensures Build(subjects).handlerMap.Valid()
    ensures forall s :: s in Build(subjects).handlerMap.names <==> s in subjects && !IsWildcard(s)
    ensures forall s :: s in Build(subjects).handlerMap.names ==> Build(subjects).handlerMap.names[s] == HandlerName(s)
  {
    if subjects != [] {
      Snoc(subjects);
      BuildMapKeys(subjects[..|subjects| - 1]);
    }
  }

  /** Position of the first occurrence of `s` in the list. */
  function FirstIndex(subjects: seq<string>, s: string): (i: nat)
    requires s in subjects
    ensures i < |subjects| && subjects[i] == s
    ensures forall j :: 0 <= j < i ==> subjects[j] != s
  {
    if subjects[0] == s then 0 else 1 + FirstIndex(subjects[1..], s)
  }

  lemma FirstIndexAppend(p: seq<string>, x: string, s: string)
    requires s in p
    ensures FirstIndex(p + [x], s) == FirstIndex(p, s)
  {
    var i, j := FirstIndex(p, s), FirstIndex(p + [x], s);
    assert (p + [x])[i] == s;
  }

  /** The keys of the handler map are in the order the subjects first appear in the list. */
  lemma {:induction false} BuildKeyOrder(subjects: seq<string>)
    ensures forall k :: k in Build(subjects).handlerMap.keys ==> k in subjects
    ensures forall i, j :: 0 <= i < j < |Build(subjects).handlerMap.keys| ==>
      FirstIndex(subjects, Build(subjects).handlerMap.keys[i]) < FirstIndex(subjects, Build(subjects).handlerMap.keys[j])
  {
    if subjects != [] {
      var p := subjects[..|subjects| - 1];
      var x := subjects[|subjects| - 1];
      SnocMembers(subjects);
      BuildKeyOrder(p);
      var before, after := Build(p).handlerMap.keys, Build(subjects).handlerMap.keys;
      var grows := BuildKeysSnoc(subjects);
      forall k | k in before ensures FirstIndex(subjects, k) == FirstIndex(p, k) {
        FirstIndexAppend(p, x, k);
      }
      forall k | k in after ensures k in subjects {
        assert k in before || k == x;
      }
      forall i, j | 0 <= i < j < |after|
        ensures FirstIndex(subjects, after[i]) < FirstIndex(subjects, after[j])
      {
        assert after[i] == before[i] && after[i] in before;
        if j < |before| {
          assert after[j] == before[j];
        } else {
          assert after[j] == x && FirstIndex(subjects, x) == |p|;
        }
      }
    }
  }

  /** The last subject is appended to the keys exactly when it is not a wildcard and new to the list. */
  lemma BuildKeysSnoc(subjects: seq<string>) returns (grows: bool)
    requires subjects != []
    ensures grows <==> !IsWildcard(subjects[|subjects| - 1]) && subjects[|subjects| - 1] !in subjects[..|subjects| - 1]
    ensures Build(subjects).handlerMap.keys ==
      if grows then Build(subjects[..|subjects| - 1]).handlerMap.keys + [subjects[|subjects| - 1]]
      else Build(subjects[..|subjects| - 1]).handlerMap.keys
  {
    var p := subjects[..|subjects| - 1];
    var x := subjects[|subjects| - 1];
    Snoc(subjects);
    BuildMapDomain(p);
    grows := !IsWildcard(x) && x !in p;
  }

  /** No key of the handler map holds `*` or `>`; "orders.*" and "users.>" are never keys. */
  lemma NoWildcardKeys(subjects: seq<string>)
    ensures forall s :: s in Build(subjects).handlerMap.names ==> '*' !in s && '>' !in s
    ensures "orders.*" !in Build(subjects).handlerMap.names && "users.>" !in Build(subjects).handlerMap.names
  {
    BuildMapKeys(subjects);
    assert "orders.*"[7] == '*' && "users.>"[6] == '>';
  }

  /** The map depends only on which subjects are listed: not on their order nor on repetitions. */
  lemma SameSubjectsSameMap(subjects1: seq<string>, subjects2: seq<string>)
    requires forall s :: s in subjects1 <==> s in subjects2
    ensures Build(subjects1).handlerMap.names == Build(subjects2).handlerMap.names
  {
    BuildMapKeys(subjects1);
    BuildMapKeys(subjects2);
  }

  /** A collision drops neither subject: both stay keys, mapped to the shared name. */
  lemma CollisionKeepsBoth(subjects: seq<string>, s1: string, s2: string)
    requires s1 in subjects && s2 in subjects && !IsWildcard(s1) && !IsWildcard(s2)
    requires HandlerName(s1) == HandlerName(s2)
    ensures s1 in Build(subjects).handlerMap.names && s2 in Build(subjects).handlerMap.names
    ensures Build(subjects).handlerMap.names[s1] == Build(subjects).handlerMap.names[s2] == HandlerName(s1)
  {
    BuildMapKeys(subjects);
  }

  /** `method_collisions` has one entry per distinct derived name. */
  lemma {:induction false} CollisionTableKeys(subjects: seq<string>)
    ensures Build(subjects).methodCollisions.Keys == DerivedNames(subjects)
  {
    if subjects != [] {
      var p := subjects[..|subjects| - 1];
      var x := subjects[|subjects| - 1];
      Snoc(subjects);
      CollisionTableKeys(p);
      if IsWildcard(x) {
        assert DerivedNames(subjects) == DerivedNames(p);
      } else {
        assert DerivedNames(subjects) == DerivedNames(p) + {HandlerName(x)};
      }
    }
  }

  /** `method_collisions` maps each name to the first subject of the list that derives it. */
  lemma {:induction false} CollisionTableFirst(subjects: seq<string>)
    ensures forall n :: n in Build(subjects).methodCollisions ==>
      FirstWithName(subjects, n) == Some(Build(subjects).methodCollisions[n])
  {
    if subjects != [] {
      var p := subjects[..|subjects| - 1];
      var x := subjects[|subjects| - 1];
      Snoc(subjects);
      CollisionTableFirst(p);
      CollisionTableKeys(p);
      forall n | n in Build(subjects).methodCollisions
        ensures FirstWithName(subjects, n) == Some(Build(subjects).methodCollisions[n])
      {
        FirstWithNameAppend(p, x, n);
        FirstWithNameExists(p, n);
      }
    }
  }

  /** Every non-wildcard entry either records a new name or logs one warning. */
  lemma {:induction false} CollisionAccounting(subjects: seq<string>)
    ensures |Build(subjects).warnings| + |Build(subjects).methodCollisions| == MappedCount(subjects)
  {
    if subjects != [] {
      var p := subjects[..|subjects| - 1];
      Snoc(subjects);
      CollisionAccounting(p);
    }
  }

  /**
   * The collision law, one subject at a time: appending a subject logs one
   * warning exactly when it is a non-wildcard subject whose name an earlier
   * subject already derives, naming the first such subject.
   */
  lemma WarningStep(p: seq<string>, x: string)
    ensures Build(p + [x]).warnings == Build(p).warnings +
      (if !IsWildcard(x) && FirstWithName(p, HandlerName(x)).Some?
       then [Collision(x, FirstWithName(p, HandlerName(x)).value, HandlerName(x))]
       else [])
  {
    Snoc(p + [x]);
    assert (p + [x])[..|p|] == p;
    CollisionTableKeys(p);
    CollisionTableFirst(p);
    FirstWithNameExists(p, HandlerName(x));
  }

  /** Number of collision warnings: mapped entries minus distinct derived names. */
  lemma WarningCount(subjects: seq<string>)
    ensures |Build(subjects).warnings| == MappedCount(subjects) - |DerivedNames(subjects)|
  {
    CollisionTableKeys(subjects);
    CollisionAccounting(subjects);
  }

  /**
   * The map's values, in key order, are the derived names of the keys, and
   * as a set exactly the derived names. Stated apart from `HandlerMethods`
   * so that the proof of that function stays cheap.
   */
  lemma MapValuesAreDerivedNames(subjects: seq<string>)
    ensures Build(subjects).handlerMap.Valid()
    ensures forall i :: 0 <= i < |Build(subjects).handlerMap.keys| ==>
      Build(subjects).handlerMap.Values()[i] == HandlerName(Build(subjects).handlerMap.keys[i])
    ensures forall n :: n in Build(subjects).handlerMap.Values() <==> n in DerivedNames(subjects)
  {
    BuildMapKeys(subjects);
    var m := Build(subjects).handlerMap;
    var names := m.Values();
    forall n | n in DerivedNames(subjects) ensures n in names {
      var s :| s in subjects && !IsWildcard(s) && HandlerName(s) == n;
      assert s in m.keys;
      var i :| 0 <= i < |m.keys| && m.keys[i] == s;
      assert names[i] == n;
    }
    forall n | n in names ensures n in DerivedNames(subjects) {
      var i :| 0 <= i < |names| && names[i] == n;
      assert m.keys[i] in m.names;
    }
  }

  // ---------------------------------------------------------------------
  // Messages and the router object
  // ---------------------------------------------------------------------

  /** A delivered message: its subject, and how often it was acked and naked. */
  class Msg {
    const subject: string
    var acks: nat
    var naks: nat

    constructor (subject: string)
      ensures this.subject == subject && acks == 0 && naks == 0
    {
      this.subject := subject;
      acks, naks := 0, 0;
    }

    /** Negatively acknowledge: ask the broker to redeliver the message. */
    method Nak()
      modifies this
      ensures naks == old(naks) + 1 && acks == old(acks)
    {
      naks := naks + 1;
    }
  }

  /** Why `handle` fell back instead of invoking a handler method. */
  datatype Reason = UnhandledSubject | NoMapping | NotImplemented

  /** What awaiting an application handler method does: return, or raise an exception with a message. */
  datatype CallResult = Returns | Raises(message: string)

  /**
   * An attribute of the router object: an async method, which is callable,
   * or a plain value, which `hasattr` finds but `callable` rejects.
   */
  datatype Attribute = AsyncMethod(result: CallResult) | NonCallable

  /** An exception out of the invoke path: the handler's own, or the TypeError of calling a non-callable. */
  datatype HandlerError = ApplicationError(message: string) | NotCallableError(name: string)

  /** How a call to `handle` ended. */
  datatype Outcome =
    | Handled(name: string)                       // the handler method returned
    | Raised(name: string, error: HandlerError)   // the exception propagated to the caller
    | FellBack(reason: Reason)                    // the fallback ran

  /** The path `handle` takes for a subject. */
  datatype Decision = Fallback(reason: Reason) | Invoke(name: string)

  /**
   * `ConsumerHandler`: its subject list, its handler map and the collision
   * warnings logged while building it are fixed at construction;
   * `attributes` stands for what `hasattr`/`getattr` find on the object,
   * the handler methods a subclass defines.
   */
  class ConsumerHandler {
    const subjects: seq<string>
    const attributes: map<string, Attribute>
    const handlerMap: HandlerMap
    const collisionLog: seq<Collision>

    ghost predicate Valid()
    {
      && handlerMap == Build(subjects).handlerMap
      && collisionLog == Build(subjects).warnings
    }

    constructor (subjects: seq<string>, attributes: map<string, Attribute>)
      ensures Valid()
      ensures this.subjects == subjects && this.attributes == attributes
    {
      this.subjects := subjects;
      this.attributes := attributes;
      var handlerMap, warnings := BuildHandlerMap(subjects);
      this.handlerMap := handlerMap;
      this.collisionLog := warnings;
    }

    /**
     * `_build_handler_map`: one pass over the subjects, skipping wildcards,
     * recording each subject's name and warning when a name was already
     * produced by an earlier subject.
     */
    static method BuildHandlerMap(subjects: seq<string>) returns (handlerMap: HandlerMap, warnings: seq<Collision>)
      ensures handlerMap == Build(subjects).handlerMap && warnings == Build(subjects).warnings
      ensures handlerMap.Valid()
      ensures forall s :: s in handlerMap.names <==> s in subjects && !IsWildcard(s)
      ensures forall s :: s in handlerMap.names ==> handlerMap.names[s] == HandlerName(s)
      ensures |warnings| == MappedCount(subjects) - |DerivedNames(subjects)|
    {
      handlerMap := HandlerMap([], map[]);
      var methodCollisions: map<string, string> := map[];
      warnings := [];
      for i := 0 to |subjects|
        invariant BuildState(handlerMap, methodCollisions, warnings) == Build(subjects[..i])
      {
        Snoc(subjects[..i + 1]);
        assert subjects[..i + 1][..i] == subjects[..i];
        var subject := subjects[i];
        if IsWildcard(subject) {
          continue;
        }
        var name := HandlerName(subject);
        if name in methodCollisions {
          warnings := warnings + [Collision(subject, methodCollisions[name], name)];
        } else {
          methodCollisions := methodCollisions[name := subject];
        }
        handlerMap := handlerMap.Put(subject, name);
      }
      assert subjects[..|subjects|] == subjects;
      BuildMapKeys(subjects);
      WarningCount(subjects);
    }

    /** The path `handle` takes for a message with this subject. */
    function Route(subject: string): (d: Decision)
      requires Valid()
      ensures d == Fallback(UnhandledSubject) <==> subject !in subjects
      ensures d == Fallback(NoMapping) <==> subject in subjects && IsWildcard(subject)
      ensures d == Fallback(NotImplemented) <==>
        subject in subjects && !IsWildcard(subject) && HandlerName(subject) !in attributes
      ensures d.Invoke? <==> subject in subjects && !IsWildcard(subject) && HandlerName(subject) in attributes
      ensures d.Invoke? ==> d.name == HandlerName(subject)
    {
      BuildMapKeys(subjects);
      if subject !in subjects then Fallback(UnhandledSubject)
      else if subject !in handlerMap.names || handlerMap.names[subject] == "" then Fallback(NoMapping)
      else if handlerMap.names[subject] !in attributes then Fallback(NotImplemented)
      else Invoke(handlerMap.names[subject])
    }

    /**
     * `handle`: route the message to its handler method, or to the
     * fallback. The router itself never acks or naks on the invoke path,
     * and an exception from the handler method propagates unchanged.
     */
    method Handle(msg: Msg) returns (outcome: Outcome)
      requires Valid()
      modifies msg
      ensures Route(msg.subject).Fallback? ==>
        && outcome == FellBack(Route(msg.subject).reason)
        && msg.naks == old(msg.naks) + 1 && msg.acks == old(msg.acks)
      ensures Route(msg.subject).Invoke? ==>
        && msg.naks == old(msg.naks) && msg.acks == old(msg.acks)
        && var name := Route(msg.subject).name;
           match attributes[name]
           case AsyncMethod(Returns) => outcome == Handled(name)
           case AsyncMethod(Raises(e)) => outcome == Raised(name, ApplicationError(e))
           case NonCallable => outcome == Raised(name, NotCallableError(name))
    {
      var subject := msg.subject;
      if subject !in subjects {
        FallbackHandle(msg, UnhandledSubject);
        return FellBack(UnhandledSubject);
      }
      if subject !in handlerMap.names || handlerMap.names[subject] == "" {
        FallbackHandle(msg, NoMapping);
        return FellBack(NoMapping);
      }
      var name := handlerMap.names[subject];
      if name !in attributes {
        FallbackHandle(msg, NotImplemented);
        return FellBack(NotImplemented);
      }
      match attributes[name] {
        case AsyncMethod(Returns) =>
          outcome := Handled(name);
        case AsyncMethod(Raises(e)) =>
          outcome := Raised(name, ApplicationError(e));
        case NonCallable =>
          outcome := Raised(name, NotCallableError(name));
      }
    }

    /** The default `fallback_handle`: nak the message once, never ack it. */
    method FallbackHandle(msg: Msg, reason: Reason)
      modifies msg
      ensures msg.naks == old(msg.naks) + 1 && msg.acks == old(msg.acks)
    {
      msg.Nak();
    }

    /** `get_handler_methods`: the map's values, one per mapped subject, in map order. */
    function HandlerMethods(): (names: seq<string>)
      requires Valid()
      ensures |names| == |handlerMap.keys|
      ensures forall i :: 0 <= i < |names| ==> names[i] == HandlerName(handlerMap.keys[i])
      ensures forall n :: n in names <==> n in DerivedNames(subjects)
    {
      MapValuesAreDerivedNames(subjects);
      handlerMap.Values()
    }

    /** Whether the object has a callable attribute called `name`. */
    predicate Implemented(name: string)
    {
      name in attributes && attributes[name].AsyncMethod?
    }

    /** The entries of `names` without a callable attribute, in order. */
    function Unimplemented(names: seq<string>): (r: seq<string>)
      ensures |r| <= |names|
      ensures forall n :: n in r <==> n in names && !Implemented(n)
    {
      if names == [] then []
      else
        var last := names[|names| - 1];
        assert names == names[..|names| - 1] + [last];
        Unimplemented(names[..|names| - 1]) + (if Implemented(last) then [] else [last])
    }

    /**
     * `validate_handlers`: the handler-method names, in map order, whose
     * attribute is absent or not callable.
     */
    method ValidateHandlers() returns (missing: seq<string>)
      requires Valid()
      ensures missing == Unimplemented(HandlerMethods())
      ensures forall n :: n in missing <==> n in DerivedNames(subjects) && !Implemented(n)
    {
      BuildMapValid(subjects);
      ghost var methods := handlerMap.Values();
      missing := [];
      for i := 0 to |handlerMap.keys|
        invariant missing == Unimplemented(methods[..i])
      {
        var name := handlerMap.names[handlerMap.keys[i]];
        UnimplementedSnoc(methods, i);
        if !(name in attributes) || !attributes[name].AsyncMethod? {
          missing := missing + [name];
        }
      }
      assert methods[..|handlerMap.keys|] == methods;
      assert methods == HandlerMethods();
    }

    /** Extending the scanned prefix by one name adds that name when it is not implemented. */
    lemma UnimplementedSnoc(names: seq<string>, i: nat)
      requires i < |names|
      ensures Unimplemented(names[..i + 1]) == Unimplemented(names[..i]) + (if Implemented(names[i]) then [] else [names[i]])
    {
      assert names[..i + 1][..i] == names[..i];
    }

    /** When validation reports nothing, every listed non-wildcard subject is routed to a callable handler. */
    lemma ValidatedRoutesInvoke(subject: string)
      requires Valid()
      requires Unimplemented(HandlerMethods()) == []
      requires subject in subjects && !IsWildcard(subject)
      ensures Route(subject) == Invoke(HandlerName(subject))
      ensures attributes[HandlerName(subject)].AsyncMethod?
    {
      assert HandlerName(subject) in DerivedNames(subjects);
      assert HandlerName(subject) in HandlerMethods();
    }

    /**
     * `handle` checks only `hasattr`, `validate_handlers` also `callable`:
     * a non-callable attribute is routed to, and reported missing.
     */
    lemma NonCallableRoutedAndReported(subject: string)
      requires Valid()
      requires subject in subjects && !IsWildcard(subject)
      requires HandlerName(subject) in attributes && attributes[HandlerName(subject)] == NonCallable
      ensures Route(subject) == Invoke(HandlerName(subject))
      ensures HandlerName(subject) in Unimplemented(HandlerMethods())
    {
      assert HandlerName(subject) in DerivedNames(subjects);
    }
  }
}
