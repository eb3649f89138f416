/** Pub/sub subscriptions: every annotated method registers itself, in an order nobody
    controls, and the runtime lists one subscription per topic. */
module Subscriptions {
  import opened WorkflowTypes

  datatype Key = Key(pubsub: string, topic: string)

  datatype Rule = Rule(path: Option<string>, match_: string, priority: int)

  /** A route may be null; a null or empty dead-letter topic means none. */
  datatype Registration =
    Registration(key: Key, match_: string, priority: int, route: Option<string>, deadLetter: Option<string>)

  datatype Builder = Builder(rules: seq<Rule>, defaultPath: Option<string>, deadLetterTopic: Option<string>)

  datatype Routes = Routes(rules: seq<(string, Option<string>)>, defaultPath: Option<string>)

  datatype Subscription = Subscription(key: Key, route: Option<string>, routes: Option<Routes>, deadLetterTopic: Option<string>)

  const NEW_BUILDER: Builder := Builder([], None, None)

  predicate IsRule(r: Registration) { r.match_ != "" }

  predicate HasDeadLetter(r: Registration) { r.deadLetter.Some? && r.deadLetter.value != "" }

  function RuleOf(r: Registration): Rule { Rule(r.route, r.match_, r.priority) }

  predicate UsesPriority(rules: seq<Rule>, priority: int) {
    exists i :: 0 <= i < |rules| && rules[i].priority == priority
  }

  // ----- one registration -----

  /** `threw`: the registration was refused. What it had done until then stays. */
  datatype Registered = Registered(builder: Builder, threw: bool)

  function Route(b: Builder, r: Registration): Registered {
    if IsRule(r) then
      if UsesPriority(b.rules, r.priority) then Registered(b, true)
      else Registered(b.(rules := b.rules + [RuleOf(r)]), false)
    else if b.defaultPath.Some? && b.defaultPath != r.route then Registered(b, true)
    else Registered(b.(defaultPath := r.route), false)
  }

  function Register(b: Builder, r: Registration): Registered {
    var routed := Route(b, r);
    if routed.threw || !HasDeadLetter(r) then routed
    else if b.deadLetterTopic.Some? && b.deadLetterTopic != r.deadLetter then Registered(routed.builder, true)
    else Registered(routed.builder.(deadLetterTopic := r.deadLetter), false)
  }

  // ----- all registrations -----

  type Builders = map<Key, Builder>

  function BuilderAt(s: Builders, key: Key): Builder {
    if key in s then s[key] else NEW_BUILDER
  }

  /** None as soon as one registration is refused. */
  function RegisterAll(regs: seq<Registration>): Option<Builders>
    decreases |regs|
  {
    if regs == [] then Some(map[])
    else
      var n := |regs| - 1;
      var s := RegisterAll(regs[..n]);
      if s.None? then None
      else
        var out := Register(BuilderAt(s.value, regs[n].key), regs[n]);
        if out.threw then None else Some(s.value[regs[n].key := out.builder])
  }

  /** `b` is refused because of `a`, which came before it. */
  predicate Clash(a: Registration, b: Registration) {
    a.key == b.key && (
      (IsRule(a) && IsRule(b) && a.priority == b.priority)
      || (!IsRule(a) && !IsRule(b) && a.route.Some? && a.route != b.route)
      || (HasDeadLetter(a) && HasDeadLetter(b) && a.deadLetter != b.deadLetter))
  }

  ghost predicate NoClash(regs: seq<Registration>) {
    forall i, j :: 0 <= i < j < |regs| ==> !Clash(regs[i], regs[j])
  }

  /** A builder holds just what was registered for its key: the rules, the one default
      route and the one dead-letter topic. */
  ghost predicate Holds(b: Builder, regs: seq<Registration>, key: Key) {
    && (forall rule :: rule in b.rules <==> exists r :: r in regs && r.key == key && IsRule(r) && RuleOf(r) == rule)
    && (forall i, j :: 0 <= i < j < |b.rules| ==> b.rules[i].priority != b.rules[j].priority)
    && (forall path :: b.defaultPath == Some(path) <==>
          exists r :: r in regs && r.key == key && !IsRule(r) && r.route == Some(path))
    && (forall topic :: b.deadLetterTopic == Some(topic) <==>
          exists r :: r in regs && r.key == key && HasDeadLetter(r) && r.deadLetter == Some(topic))
  }

  lemma RegisterRefuses(b: Builder, regs: seq<Registration>, r: Registration)
    requires Holds(b, regs, r.key)
    ensures Register(b, r).threw <==> exists a :: a in regs && Clash(a, r)
  {
    if a :| a in regs && Clash(a, r) {
      if IsRule(a) && IsRule(r) && a.priority == r.priority {
        assert RuleOf(a) in b.rules;
      }
    }
    if IsRule(r) && UsesPriority(b.rules, r.priority) {
      var i :| 0 <= i < |b.rules| && b.rules[i].priority == r.priority;
      assert b.rules[i] in b.rules;
      var a :| a in regs && a.key == r.key && IsRule(a) && RuleOf(a) == b.rules[i];
      assert Clash(a, r);
    } else if !IsRule(r) && b.defaultPath.Some? && b.defaultPath != r.route {
      var a :| a in regs && a.key == r.key && !IsRule(a) && a.route == Some(b.defaultPath.value);
      assert Clash(a, r);
    } else if HasDeadLetter(r) && b.deadLetterTopic.Some? && b.deadLetterTopic != r.deadLetter {
      var a :| a in regs && a.key == r.key && HasDeadLetter(a) && a.deadLetter == Some(b.deadLetterTopic.value);
      assert Clash(a, r);
    }
  }

  lemma RegisterHolds(b: Builder, regs: seq<Registration>, r: Registration)
    requires Holds(b, regs, r.key) && !Register(b, r).threw
    ensures Holds(Register(b, r).builder, regs + [r], r.key)
  {
    var d := Register(b, r).builder;
    var more := regs + [r];
    assert r in more && forall a :: a in more <==> a in regs || a == r;
    forall rule ensures rule in d.rules <==> exists a :: a in more && a.key == r.key && IsRule(a) && RuleOf(a) == rule {
      if rule in d.rules && rule !in b.rules {
        assert RuleOf(r) == rule;
      }
    }
  }

  lemma OthersHold(b: Builder, regs: seq<Registration>, r: Registration, key: Key)
    requires Holds(b, regs, key) && r.key != key
    ensures Holds(b, regs + [r], key)
  {
    assert forall a :: a in regs + [r] <==> a in regs || a == r;
  }

  /** A sequence of registrations is accepted exactly when none of them clashes with an
      earlier one, and then each builder holds what was registered for it. */
  lemma {:induction false} AcceptedExactlyWhen(regs: seq<Registration>)
    ensures RegisterAll(regs).Some? <==> NoClash(regs)
    ensures RegisterAll(regs).Some? ==> forall key :: Holds(BuilderAt(RegisterAll(regs).value, key), regs, key)
    ensures RegisterAll(regs).Some? ==>
              forall key :: key in RegisterAll(regs).value <==> exists r :: r in regs && r.key == key
    decreases |regs|
  {
    hide Register, Holds, Clash;
    if regs == [] {
      forall key ensures Holds(NEW_BUILDER, regs, key) { NothingHolds(key); }
    } else {
      var n := |regs| - 1;
      var r := regs[n];
      AcceptedExactlyWhen(regs[..n]);
      assert regs == regs[..n] + [r];
      var s := RegisterAll(regs[..n]);
      assert NoClash(regs) <==> NoClash(regs[..n]) && !exists a :: a in regs[..n] && Clash(a, r) by {
        forall a | a in regs[..n] && Clash(a, r) ensures !NoClash(regs) {
          var i :| 0 <= i < n && regs[i] == a;
        }
      }
      if s.Some? {
        RegisterRefuses(BuilderAt(s.value, r.key), regs[..n], r);
        if RegisterAll(regs).Some? {
          RegisterHolds(BuilderAt(s.value, r.key), regs[..n], r);
          forall key ensures Holds(BuilderAt(RegisterAll(regs).value, key), regs, key) {
            if key != r.key {
              OthersHold(BuilderAt(s.value, key), regs[..n], r, key);
            }
          }
        }
      }
    }
  }

  lemma NothingHolds(key: Key)
    ensures Holds(NEW_BUILDER, [], key)
  {
  }

  // ----- sorting -----

  function Insert(rule: Rule, sorted: seq<Rule>): seq<Rule> {
    if sorted == [] || rule.priority < sorted[0].priority then [rule] + sorted
    else [sorted[0]] + Insert(rule, sorted[1..])
  }

  /** A stable sort by priority. */
  function Sorted(rules: seq<Rule>): seq<Rule>
    decreases |rules|
  {
    if rules == [] then [] else Insert(rules[|rules| - 1], Sorted(rules[..|rules| - 1]))
  }

  ghost predicate Ascends(rules: seq<Rule>) {
    forall i, j :: 0 <= i < j < |rules| ==> rules[i].priority < rules[j].priority
  }

  ghost predicate DistinctPriorities(rules: seq<Rule>) {
    forall i, j :: 0 <= i < j < |rules| ==> rules[i].priority != rules[j].priority
  }

  lemma {:induction false} InsertPermutes(rule: Rule, sorted: seq<Rule>)
    ensures multiset(Insert(rule, sorted)) == multiset(sorted) + multiset{rule}
    decreases |sorted|
  {
    if sorted != [] && rule.priority >= sorted[0].priority {
      InsertPermutes(rule, sorted[1..]);
      assert sorted == [sorted[0]] + sorted[1..];
    }
  }

  lemma InsertAdds(rule: Rule, sorted: seq<Rule>)
    ensures forall x :: x in Insert(rule, sorted) <==> x in sorted || x == rule
  {
    hide Insert;
    InsertPermutes(rule, sorted);
    forall x ensures x in Insert(rule, sorted) <==> x in sorted || x == rule {
      assert x in Insert(rule, sorted) <==> x in multiset(Insert(rule, sorted));
    }
  }

  lemma {:induction false} InsertKeeps(rule: Rule, sorted: seq<Rule>)
    requires Ascends(sorted) && forall x :: x in sorted ==> x.priority != rule.priority
    ensures Ascends(Insert(rule, sorted))
    decreases |sorted|
  {
    if sorted != [] && rule.priority >= sorted[0].priority {
      InsertKeeps(rule, sorted[1..]);
      InsertAdds(rule, sorted[1..]);
      var r := Insert(rule, sorted[1..]);
      forall i | 0 <= i < |r| ensures sorted[0].priority < r[i].priority {
        assert r[i] in r;
      }
    }
  }

  lemma {:induction false} SortedSorts(rules: seq<Rule>)
    requires DistinctPriorities(rules)
    ensures Ascends(Sorted(rules)) && multiset(Sorted(rules)) == multiset(rules)
    ensures forall x :: x in Sorted(rules) <==> x in rules
    decreases |rules|
  {
    if rules != [] {
      var n := |rules| - 1;
      assert rules == rules[..n] + [rules[n]];
      SortedSorts(rules[..n]);
      InsertKeeps(rules[n], Sorted(rules[..n]));
      InsertPermutes(rules[n], Sorted(rules[..n]));
      InsertAdds(rules[n], Sorted(rules[..n]));
    }
  }

  /** Two ascending lists of the same rules are the same list. */
  lemma {:induction false} AscendingIsUnique(a: seq<Rule>, b: seq<Rule>)
    requires Ascends(a) && Ascends(b) && forall x :: x in a <==> x in b
    ensures a == b
    decreases |a|
  {
    if a == [] {
      assert b == [] by { assert forall i :: 0 <= i < |b| ==> b[i] in b; }
    } else {
      assert a[0] in b;
      var i :| 0 <= i < |b| && b[i] == a[0];
      assert b[0] in a;
      assert a[0] == b[0];
      forall x ensures x in a[1..] <==> x in b[1..] {
        if x in a[1..] { SamePlace(a, x); assert x in b; }
        if x in b[1..] { SamePlace(b, x); assert x in a; }
      }
      AscendingIsUnique(a[1..], b[1..]);
    }
  }

  lemma SamePlace(a: seq<Rule>, x: Rule)
    requires Ascends(a) && a != [] && x in a[1..]
    ensures x in a && x != a[0]
  {
  }

  // ----- building -----

  function Target(rule: Rule): (string, Option<string>) { (rule.match_, rule.path) }

  function Targets(rules: seq<Rule>): seq<(string, Option<string>)> {
    seq(|rules|, i requires 0 <= i < |rules| => Target(rules[i]))
  }

  function Build(key: Key, b: Builder): Subscription {
    if b.rules == [] then Subscription(key, b.defaultPath, None, b.deadLetterTopic)
    else Subscription(key, None, Some(Routes(Targets(Sorted(b.rules)), b.defaultPath)), b.deadLetterTopic)
  }

  /** Building sorts the builder's rules. */
  function Built(b: Builder): Builder { b.(rules := Sorted(b.rules)) }

  /** Building again changes neither the result nor the builder. */
  lemma BuildAgain(key: Key, b: Builder)
    requires DistinctPriorities(b.rules)
    ensures Build(key, Built(b)) == Build(key, b) && Built(Built(b)) == Built(b)
  {
    SortedSorts(b.rules);
    SortedSorts(Sorted(b.rules));
    AscendingIsUnique(Sorted(Sorted(b.rules)), Sorted(b.rules));
    assert |Sorted(b.rules)| == |multiset(Sorted(b.rules))| == |multiset(b.rules)| == |b.rules|;
  }

  // ----- the order of registration -----

  function Listed(s: Builders): map<Key, Subscription> {
    map key | key in s :: Build(key, s[key])
  }

  /** The registrations of a topic's rules, by ascending priority: one for each rule. */
  ghost predicate ByPriority(regs: seq<Registration>, key: Key, ordered: seq<Registration>) {
    && (forall i :: 0 <= i < |ordered| ==> ordered[i] in regs && ordered[i].key == key && ordered[i].match_ != "")
    && (forall i, j :: 0 <= i < j < |ordered| ==> ordered[i].priority < ordered[j].priority)
    && (forall r :: r in regs && r.key == key && r.match_ != "" ==>
          exists i :: 0 <= i < |ordered| && ordered[i].priority == r.priority
                      && ordered[i].match_ == r.match_ && ordered[i].route == r.route)
  }

  /** What is listed for a topic: its rules by ascending priority, each a match and a path,
      with the default route beside them; or the default route alone if it has no rules; and
      its dead-letter topic. */
  ghost predicate Shows(regs: seq<Registration>, key: Key, s: Subscription, ordered: seq<Registration>) {
    && s.key == key && ByPriority(regs, key, ordered)
    && (if ordered == [] then s.routes.None? else s.routes.Some? && s.route.None?)
    && (s.routes.Some? ==>
          |s.routes.value.rules| == |ordered|
          && forall i :: 0 <= i < |ordered| ==> s.routes.value.rules[i] == (ordered[i].match_, ordered[i].route))
    && (forall path ::
          (if s.routes.Some? then s.routes.value.defaultPath else s.route) == Some(path)
          <==> exists r :: r in regs && r.key == key && r.match_ == "" && r.route == Some(path))
    && (forall topic :: s.deadLetterTopic == Some(topic)
          <==> topic != "" && exists r :: r in regs && r.key == key && r.deadLetter == Some(topic))
  }

  /** The registration that a rule of a builder comes from. */
  lemma ComesFrom(b: Builder, regs: seq<Registration>, key: Key, rules: seq<Rule>) returns (ordered: seq<Registration>)
    requires Holds(b, regs, key) && forall rule :: rule in rules ==> rule in b.rules
    ensures |ordered| == |rules|
    ensures forall i :: 0 <= i < |ordered| ==>
              ordered[i] in regs && ordered[i].key == key && IsRule(ordered[i]) && RuleOf(ordered[i]) == rules[i]
    decreases |rules|
  {
    if rules == [] {
      ordered := [];
    } else {
      var n := |rules| - 1;
      var rest := ComesFrom(b, regs, key, rules[..n]);
      assert rules[n] in b.rules;
      var r :| r in regs && r.key == key && IsRule(r) && RuleOf(r) == rules[n];
      ordered := rest + [r];
    }
  }

  lemma RulesAreOrdered(b: Builder, regs: seq<Registration>, key: Key) returns (ordered: seq<Registration>)
    requires Holds(b, regs, key)
    ensures ByPriority(regs, key, ordered) && |ordered| == |Sorted(b.rules)|
    ensures forall i :: 0 <= i < |ordered| ==> RuleOf(ordered[i]) == Sorted(b.rules)[i]
  {
    hide Sorted;
    SortedSorts(b.rules);
    var rules := Sorted(b.rules);
    ordered := ComesFrom(b, regs, key, rules);
    forall r | r in regs && r.key == key && r.match_ != ""
      ensures exists i :: 0 <= i < |ordered| && ordered[i].priority == r.priority
                          && ordered[i].match_ == r.match_ && ordered[i].route == r.route
    {
      assert RuleOf(r) in b.rules;
      assert RuleOf(r) in rules;
      var i :| 0 <= i < |rules| && rules[i] == RuleOf(r);
      assert RuleOf(ordered[i]) == RuleOf(r);
    }
  }

  lemma SortedIsEmpty(rules: seq<Rule>)
    requires DistinctPriorities(rules)
    ensures Sorted(rules) == [] <==> rules == []
  {
    hide Sorted;
    SortedSorts(rules);
    if rules != [] { assert rules[0] in Sorted(rules); }
    if Sorted(rules) != [] { assert Sorted(rules)[0] in rules; }
  }

  lemma BuildShows(b: Builder, regs: seq<Registration>, key: Key) returns (ordered: seq<Registration>)
    requires Holds(b, regs, key)
    ensures Shows(regs, key, Build(key, b), ordered)
  {
    ordered := RulesAreOrdered(b, regs, key);
    SortedIsEmpty(b.rules);
    DefaultsShow(b, regs, key);
    hide Sorted, Holds, ByPriority;
  }

  lemma DefaultsShow(b: Builder, regs: seq<Registration>, key: Key)
    requires Holds(b, regs, key)
    ensures forall path :: b.defaultPath == Some(path)
              <==> exists r :: r in regs && r.key == key && r.match_ == "" && r.route == Some(path)
    ensures forall topic :: b.deadLetterTopic == Some(topic)
              <==> topic != "" && exists r :: r in regs && r.key == key && r.deadLetter == Some(topic)
  {
  }

  /** Accepted registrations are listed, topic by topic, as what they are. */
  lemma {:induction false} ListingShows(regs: seq<Registration>)
    requires RegisterAll(regs).Some?
    ensures var listed := Listed(RegisterAll(regs).value);
            && (forall key :: key in listed <==> exists r :: r in regs && r.key == key)
            && (forall key :: key in listed ==> exists ordered :: Shows(regs, key, listed[key], ordered))
  {
    hide RegisterAll, Holds, Build, Shows;
    AcceptedExactlyWhen(regs);
    var s := RegisterAll(regs).value;
    forall key | key in s ensures exists ordered :: Shows(regs, key, Build(key, s[key]), ordered) {
      assert Holds(BuilderAt(s, key), regs, key);
      var ordered := BuildShows(s[key], regs, key);
    }
  }

  /** For one topic, one registration sets a null default route and another a real one. */
  ghost predicate Mixed(regs: seq<Registration>) {
    exists a, b :: a in regs && b in regs && a.key == b.key && !IsRule(a) && !IsRule(b) && a.route.None? && b.route.Some?
  }

  lemma ClashIsSymmetric(regs: seq<Registration>, a: Registration, b: Registration)
    requires !Mixed(regs) && a in regs && b in regs
    ensures Clash(a, b) <==> Clash(b, a)
  {
  }

  function WithoutAt<T>(s: seq<T>, i: nat): seq<T>
    requires i < |s|
  {
    s[..i] + s[i + 1..]
  }

  lemma WithoutOne<T>(s: seq<T>, i: nat)
    requires i < |s|
    ensures multiset(WithoutAt(s, i)) == multiset(s) - multiset{s[i]}
  {
    assert s == s[..i] + [s[i]] + s[i + 1..];
  }

  /** Two places of one order, equal values included, are two places of any other. */
  lemma TwoPlaces<T>(s: seq<T>, i: nat, j: nat, t: seq<T>) returns (k: nat, l: nat)
    requires i < j < |s| && multiset(s) == multiset(t)
    ensures k < |t| && l < |t| && k != l && t[k] == s[i] && t[l] == s[j]
  {
    hide WithoutAt;
    assert s[i] in multiset(t);
    k :| 0 <= k < |t| && t[k] == s[i];
    WithoutOne(s, i);
    WithoutOne(t, k);
    assert s[j] in multiset(WithoutAt(s, i)) by { StillThere(s, i, j); }
    var m :| 0 <= m < |WithoutAt(t, k)| && WithoutAt(t, k)[m] == s[j];
    l := WhereWasIt(t, k, m);
  }

  lemma StillThere<T>(s: seq<T>, i: nat, j: nat)
    requires i < j < |s|
    ensures s[j] in WithoutAt(s, i)
  {
    assert WithoutAt(s, i)[j - 1] == s[j];
  }

  lemma WhereWasIt<T>(t: seq<T>, k: nat, m: nat) returns (l: nat)
    requires k < |t| && m < |WithoutAt(t, k)|
    ensures l < |t| && l != k && t[l] == WithoutAt(t, k)[m]
  {
    l := if m < k then m else m + 1;
  }

  lemma AcceptedInAnyOrder(regs: seq<Registration>, other: seq<Registration>)
    requires multiset(regs) == multiset(other) && !Mixed(regs) && NoClash(other)
    ensures NoClash(regs)
  {
    forall i, j | 0 <= i < j < |regs| ensures !Clash(regs[i], regs[j]) {
      var k, l := TwoPlaces(regs, i, j, other);
      ClashIsSymmetric(regs, regs[i], regs[j]);
    }
  }

  lemma SameMembers(regs: seq<Registration>, other: seq<Registration>)
    requires multiset(regs) == multiset(other)
    ensures forall r :: r in regs <==> r in other
  {
    forall r ensures r in regs <==> r in other {
      assert r in multiset(regs) <==> r in multiset(other);
    }
  }

  /** What a builder lists depends only on which registrations it has seen. */
  lemma SameListing(key: Key, b: Builder, regs: seq<Registration>, b': Builder, other: seq<Registration>)
    requires Holds(b, regs, key) && Holds(b', other, key) && forall r :: r in regs <==> r in other
    ensures Build(key, b) == Build(key, b')
  {
    SortedSorts(b.rules);
    SortedSorts(b'.rules);
    forall rule ensures rule in b.rules <==> rule in b'.rules {
    }
    AscendingIsUnique(Sorted(b.rules), Sorted(b'.rules));
    SameDefault(b, regs, b', other, key);
    assert |multiset(Sorted(b.rules))| == |multiset(b.rules)| == |b.rules|;
    assert |multiset(Sorted(b'.rules))| == |multiset(b'.rules)| == |b'.rules|;
  }

  lemma SameDefault(b: Builder, regs: seq<Registration>, b': Builder, other: seq<Registration>, key: Key)
    requires Holds(b, regs, key) && Holds(b', other, key) && forall r :: r in regs <==> r in other
    ensures b.defaultPath == b'.defaultPath && b.deadLetterTopic == b'.deadLetterTopic
  {
    if b.defaultPath.Some? { assert b.defaultPath == Some(b.defaultPath.value); }
    if b'.defaultPath.Some? { assert b'.defaultPath == Some(b'.defaultPath.value); }
    if b.deadLetterTopic.Some? { assert b.deadLetterTopic == Some(b.deadLetterTopic.value); }
    if b'.deadLetterTopic.Some? { assert b'.deadLetterTopic == Some(b'.deadLetterTopic.value); }
  }

  /** Two orders of the same registrations, if both are accepted, give the same
      subscriptions: the same rules in the same order, the same default route and the
      same dead-letter topic for every topic. */
  lemma {:induction false} OrderDoesNotShow(regs: seq<Registration>, other: seq<Registration>)
    requires multiset(regs) == multiset(other) && RegisterAll(regs).Some? && RegisterAll(other).Some?
    ensures Listed(RegisterAll(regs).value) == Listed(RegisterAll(other).value)
  {
    hide Holds, Build, RegisterAll;
    AcceptedExactlyWhen(regs);
    AcceptedExactlyWhen(other);
    SameMembers(regs, other);
    var s, s' := RegisterAll(regs).value, RegisterAll(other).value;
    assert forall key :: key in s <==> key in s';
    forall key | key in s ensures Build(key, s[key]) == Build(key, s'[key]) {
      assert Holds(BuilderAt(s, key), regs, key) && Holds(BuilderAt(s', key), other, key);
      SameListing(key, s[key], regs, s'[key], other);
    }
  }

  /** Given that one order is accepted, every order is, exactly when no topic has both a
      null and a real default route. */
  lemma {:induction false} EveryOrderIsAcceptedExactlyWhen(regs: seq<Registration>)
    requires RegisterAll(regs).Some?
    ensures (forall other :: multiset(other) == multiset(regs) ==> RegisterAll(other).Some?) <==> !Mixed(regs)
  {
    hide Holds, RegisterAll;
    AcceptedExactlyWhen(regs);
    if Mixed(regs) {
      var other := NullLast(regs);
      AcceptedExactlyWhen(other);
    } else {
      forall other | multiset(other) == multiset(regs) ensures RegisterAll(other).Some? {
        AcceptedExactlyWhen(other);
        SameMembers(regs, other);
        AcceptedInAnyOrder(other, regs);
      }
    }
  }

  /** A real default route first and the null one after it: refused. */
  lemma NullLast(regs: seq<Registration>) returns (other: seq<Registration>)
    requires Mixed(regs)
    ensures multiset(other) == multiset(regs) && !NoClash(other)
  {
    var a, b :| a in regs && b in regs && a.key == b.key && !IsRule(a) && !IsRule(b) && a.route.None? && b.route.Some?;
    var i :| 0 <= i < |regs| && regs[i] == a;
    var j :| 0 <= j < |regs| && regs[j] == b;
    if j < i {
      other := regs;
      assert Clash(other[j], other[i]);
    } else {
      other := regs[i := b][j := a];
      assert multiset(other) == multiset(regs);
      assert Clash(other[i], other[j]);
    }
  }

  /** Such a topic exists: the null route first and a real one after it is accepted, the
      other way round it is refused. */
  lemma NullRouteFirstIsAccepted(key: Key)
    ensures var a, b := Registration(key, "", 0, None, None), Registration(key, "", 0, Some("/x"), None);
            RegisterAll([a, b]).Some? && Mixed([a, b]) && RegisterAll([b, a]).None?
  {
    hide RegisterAll, Holds;
    var a, b := Registration(key, "", 0, None, None), Registration(key, "", 0, Some("/x"), None);
    AcceptedExactlyWhen([a, b]);
    AcceptedExactlyWhen([b, a]);
    assert a in [a, b] && b in [a, b];
    assert Clash([b, a][0], [b, a][1]);
  }

  // ----- the objects -----

  class DaprSubscriptionBuilder {
    const key: Key
    var rules: seq<Rule>
    var deadLetterTopic: Option<string>
    var defaultPath: Option<string>

    function Contents(): Builder
      reads this
    {
      Builder(rules, defaultPath, deadLetterTopic)
    }

    constructor (key: Key)
      ensures this.key == key && Contents() == NEW_BUILDER
    {
      this.key, rules, deadLetterTopic, defaultPath := key, [], None, None;
    }

    method SetDefaultPath(path: Option<string>) returns (threw: bool)
      modifies this`defaultPath
      ensures threw <==> old(defaultPath).Some? && old(defaultPath) != path
      ensures defaultPath == if threw then old(defaultPath) else path
    {
      if defaultPath.Some? {
        if defaultPath != path {
          return true;
        }
      }
      defaultPath := path;
      return false;
    }

    method SetDeadLetterTopic(topic: Option<string>) returns (threw: bool)
      modifies this`deadLetterTopic
      ensures threw <==> old(deadLetterTopic).Some? && old(deadLetterTopic) != topic
      ensures deadLetterTopic == if threw then old(deadLetterTopic) else topic
    {
      if deadLetterTopic.Some? {
        if deadLetterTopic != topic {
          return true;
        }
      }
      deadLetterTopic := topic;
      return false;
    }

    method AddRule(path: Option<string>, match_: string, priority: int) returns (threw: bool)
      modifies this`rules
      ensures threw <==> UsesPriority(old(rules), priority)
      ensures rules == if threw then old(rules) else old(rules) + [Rule(path, match_, priority)]
    {
      for i := 0 to |rules|
        invariant forall j :: 0 <= j < i ==> rules[j].priority != priority
      {
        if rules[i].priority == priority {
          return true;
        }
      }
      rules := rules + [Rule(path, match_, priority)];
      return false;
    }

    method BuildSubscription() returns (s: Subscription)
      modifies this`rules
      ensures s == Build(key, old(Contents())) && Contents() == Built(old(Contents()))
    {
      var route, routes := None, None;
      if rules != [] {
        rules := Sorted(rules);
        routes := Some(Routes(Targets(rules), defaultPath));
      } else {
        route := defaultPath;
      }
      s := Subscription(key, route, routes, deadLetterTopic);
    }
  }

  class DaprRuntime {
    var builders: map<Key, DaprSubscriptionBuilder>

    /** Every topic has a builder of its own. */
    ghost predicate Valid()
      reads this, builders.Values
    {
      forall key :: key in builders ==> builders[key].key == key
    }

    ghost function Contents(): Builders
      reads this, builders.Values
    {
      map key | key in builders :: builders[key].Contents()
    }

    constructor ()
      ensures Valid() && Contents() == map[]
    {
      builders := map[];
    }

    /** A registration that is refused still leaves its builder, and its rule, behind. */
    method AddSubscribedTopic(r: Registration) returns (threw: bool)
      requires Valid()
      modifies this, builders.Values
      ensures Valid() && fresh(builders.Values - old(builders.Values))
      ensures threw == Register(BuilderAt(old(Contents()), r.key), r).threw
      ensures Contents() == old(Contents())[r.key := Register(BuilderAt(old(Contents()), r.key), r).builder]
    {
      hide Register;
      ghost var was := Contents();
      var builder: DaprSubscriptionBuilder;
      if r.key in builders {
        builder := builders[r.key];
      } else {
        builder := new DaprSubscriptionBuilder(r.key);
        builders := builders[r.key := builder];
      }
      assert builder.Contents() == BuilderAt(was, r.key);
      assert forall key :: key in builders && key != r.key ==> builders[key] != builder;
      threw := Configure(builder, r);
    }

    static method Configure(builder: DaprSubscriptionBuilder, r: Registration) returns (threw: bool)
      modifies builder
      ensures threw == Register(old(builder.Contents()), r).threw
      ensures builder.Contents() == Register(old(builder.Contents()), r).builder
    {
      if r.match_ != "" {
        threw := builder.AddRule(r.route, r.match_, r.priority);
      } else {
        threw := builder.SetDefaultPath(r.route);
      }
      if !threw && HasDeadLetter(r) {
        threw := builder.SetDeadLetterTopic(r.deadLetter);
      }
    }

    method BuildOne(key: Key) returns (s: Subscription)
      requires Valid() && key in builders
      modifies builders[key]
      ensures Valid() && builders == old(builders) && s == Build(key, old(builders[key].Contents()))
      ensures forall other :: other in builders ==>
                builders[other].Contents()
                == if other == key then Built(old(builders[key].Contents())) else old(builders[other].Contents())
    {
      hide Build, Built;
      assert forall other :: other in builders && other != key ==> builders[other] != builders[key];
      s := builders[key].BuildSubscription();
    }

    method ListSubscribedTopics() returns (all: map<Key, Subscription>)
      requires Valid()
      modifies builders.Values
      ensures Valid() && builders == old(builders)
      ensures all == Listed(old(Contents()))
      ensures Contents() == map key | key in old(Contents()) :: Built(old(Contents())[key])
    {
      hide Build, Built, DaprSubscriptionBuilder.Contents;
      ghost var was := Contents();
      all := map[];
      var rest := builders.Keys;
      while rest != {}
        invariant Valid() && builders == old(builders) && rest <= builders.Keys
        invariant all.Keys == builders.Keys - rest
        invariant forall key :: key in all ==> all[key] == Build(key, was[key])
        invariant forall key :: key in rest ==> builders[key].Contents() == was[key]
        invariant forall key :: key in all ==> builders[key].Contents() == Built(was[key])
        decreases |rest|
      {
        var key :| key in rest;
        rest := rest - {key};
        var s := BuildOne(key);
        all := all[key := s];
      }
    }
  }
}
