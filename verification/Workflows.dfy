/** Capabilities, the effect policy, and workflow definitions: a graph of which a
    run only ever takes the first declared transition out of each state. */
module Workflows {
  import opened Text
  import opened Json

  datatype EffectClass = Read | LocalDraft | ExternalMutation

  datatype CapabilitySpec = CapabilitySpec(capabilityId: string, effect: EffectClass)

  /** An action registry as the runner sees it: what `get` finds under a key. */
  type Catalog = string -> Option<CapabilitySpec>

  type EffectPolicy = map<EffectClass, bool>

  predicate Allows(policy: EffectPolicy, effect: EffectClass, approvalVerified: bool) {
    effect in policy && policy[effect] && (effect.ExternalMutation? ==> approvalVerified)
  }

  /** `inputFrom` pairs an input key with a dotted path into the workflow data. */
  datatype ActionCall = ActionCall(capabilityId: string, input: Dict, inputFrom: seq<(string, string)>)

  datatype Transition = Transition(fromState: string, toState: string, action: Option<ActionCall>)

  datatype StateSpec = StateSpec(name: string, terminal: bool)

  datatype Definition = Definition(
    workflowId: string, revision: int, initialState: string,
    states: seq<StateSpec>, transitions: seq<Transition>)

  function Names(def: Definition): set<string> {
    set s | s in def.states :: s.name
  }

  predicate IsTerminal(def: Definition, name: string) {
    exists s | s in def.states :: s.name == name && s.terminal
  }

  function From(ts: seq<Transition>, state: string): seq<Transition> {
    if ts == [] then []
    else if ts[0].fromState == state then [ts[0]] + From(ts[1..], state)
    else From(ts[1..], state)
  }

  lemma {:induction false} FromIsFilter(ts: seq<Transition>, state: string)
    ensures forall t :: t in From(ts, state) <==> t in ts && t.fromState == state
  {
    if ts != [] {
      FromIsFilter(ts[1..], state);
      assert ts == [ts[0]] + ts[1..];
    }
  }

  /** The matches stand in the order of their declaration, each once: the result is
      the list at these increasing places, and no other place holds a match. */
  lemma {:induction false} FromInOrder(ts: seq<Transition>, state: string) returns (places: seq<nat>)
    ensures |places| == |From(ts, state)|
    ensures forall k | 0 <= k < |places| ::
      places[k] < |ts| && ts[places[k]] == From(ts, state)[k] && ts[places[k]].fromState == state
    ensures forall k, l | 0 <= k < l < |places| :: places[k] < places[l]
    ensures forall i | 0 <= i < |ts| && ts[i].fromState == state :: i in places
  {
    if ts == [] {
      places := [];
    } else {
      var rest := FromInOrder(ts[1..], state);
      var later := seq(|rest|, k requires 0 <= k < |rest| => rest[k] + 1);
      places := if ts[0].fromState == state then [0] + later else later;
      PlacesCover(ts, state, rest, later, places);
    }
  }

  lemma PlacesCover(ts: seq<Transition>, state: string, rest: seq<nat>, later: seq<nat>, places: seq<nat>)
    requires ts != [] && |later| == |rest| && forall k | 0 <= k < |rest| :: later[k] == rest[k] + 1
    requires places == if ts[0].fromState == state then [0] + later else later
    requires forall i | 0 <= i < |ts[1..]| && ts[1..][i].fromState == state :: i in rest
    ensures forall i | 0 <= i < |ts| && ts[i].fromState == state :: i in places
  {
    forall i | 0 <= i < |ts| && ts[i].fromState == state
      ensures i in places
    {
      if i > 0 {
        assert ts[1..][i - 1] == ts[i];
        var k :| 0 <= k < |rest| && rest[k] == i - 1;
        assert later[k] == i;
      } else {
        assert places[0] == 0;
      }
    }
  }

  function TransitionsFrom(def: Definition, state: string): seq<Transition> {
    From(def.transitions, state)
  }

  function ReferencedCapabilities(def: Definition): set<string> {
    set t | t in def.transitions && t.action.Some? :: t.action.value.capabilityId
  }

  // -------------------------------------------------------------- consistency

  datatype GraphError =
    | DuplicateStates | UnknownInitial | FromUnknown(state: string) | ToUnknown(state: string)
    | DuplicateTransition(key: TransitionKey) | NoTerminal

  datatype TransitionKey = TransitionKey(fromState: string, toState: string, capability: Option<string>)

  function KeyOf(t: Transition): TransitionKey {
    TransitionKey(t.fromState, t.toState, if t.action.Some? then Some(t.action.value.capabilityId) else None)
  }

  predicate DistinctNames(states: seq<StateSpec>) {
    forall i, j | 0 <= i < j < |states| :: states[i].name != states[j].name
  }

  predicate EndpointsIn(ts: seq<Transition>, names: set<string>) {
    forall t | t in ts :: t.fromState in names && t.toState in names
  }

  predicate DistinctTransitions(ts: seq<Transition>) {
    forall i, j | 0 <= i < j < |ts| :: KeyOf(ts[i]) != KeyOf(ts[j])
  }

  function Keys(ts: seq<Transition>): set<TransitionKey> {
    set t | t in ts :: KeyOf(t)
  }

  lemma OneMore(ts: seq<Transition>, t: Transition, names: set<string>)
    ensures Keys(ts + [t]) == Keys(ts) + {KeyOf(t)}
    ensures EndpointsIn(ts + [t], names) <==> EndpointsIn(ts, names) && t.fromState in names && t.toState in names
    ensures DistinctTransitions(ts + [t]) <==> DistinctTransitions(ts) && KeyOf(t) !in Keys(ts)
  {
    var more := ts + [t];
    assert more[|ts|] == t;
    assert forall i | 0 <= i < |ts| :: more[i] == ts[i];
    assert forall i | 0 <= i < |ts| :: KeyOf(ts[i]) in Keys(ts);
  }

  lemma {:induction false} PrefixesGood(ts: seq<Transition>, n: nat, names: set<string>)
    requires n <= |ts|
    ensures EndpointsIn(ts, names) ==> EndpointsIn(ts[..n], names)
    ensures DistinctTransitions(ts) ==> DistinctTransitions(ts[..n])
  {
  }

  /** What every accepted definition satisfies. */
  predicate Consistent(def: Definition) {
    && DistinctNames(def.states)
    && def.initialState in Names(def)
    && EndpointsIn(def.transitions, Names(def))
    && DistinctTransitions(def.transitions)
    && exists s | s in def.states :: s.terminal
  }

  /** What `Consistent` asks, over the fields of the definition. */
  lemma ConsistentIff(def: Definition)
    ensures Consistent(def) <==>
      && (forall i, j | 0 <= i < j < |def.states| :: def.states[i].name != def.states[j].name)
      && (exists i | 0 <= i < |def.states| :: def.states[i].name == def.initialState)
      && (forall k | 0 <= k < |def.transitions| ::
            && (exists i | 0 <= i < |def.states| :: def.states[i].name == def.transitions[k].fromState)
            && (exists i | 0 <= i < |def.states| :: def.states[i].name == def.transitions[k].toState))
      && (forall k, l | 0 <= k < l < |def.transitions| ::
            var t, u := def.transitions[k], def.transitions[l];
            || t.fromState != u.fromState || t.toState != u.toState || t.action.Some? != u.action.Some?
            || (t.action.Some? && t.action.value.capabilityId != u.action.value.capabilityId))
      && (exists i | 0 <= i < |def.states| :: def.states[i].terminal)
  {
    forall name
      ensures name in Names(def) <==> exists i | 0 <= i < |def.states| :: def.states[i].name == name
    {
    }
    assert forall k, l | 0 <= k < l < |def.transitions| ::
      var t, u := def.transitions[k], def.transitions[l];
      KeyOf(t) != KeyOf(u) <==>
        || t.fromState != u.fromState || t.toState != u.toState || t.action.Some? != u.action.Some?
        || (t.action.Some? && t.action.value.capabilityId != u.action.value.capabilityId);
  }

  function NameList(states: seq<StateSpec>): (r: seq<string>)
    ensures |r| == |states| && forall i | 0 <= i < |states| :: r[i] == states[i].name
  {
    if states == [] then [] else [states[0].name] + NameList(states[1..])
  }

  function Elements<T>(s: seq<T>): set<T> {
    set x | x in s
  }

  lemma DistinctCons<T>(s: seq<T>)
    requires s != [] && s[0] !in s[1..]
    ensures (forall i, j | 0 <= i < j < |s| :: s[i] != s[j]) <==>
      forall i, j | 0 <= i < j < |s[1..]| :: s[1..][i] != s[1..][j]
  {
    assert forall i | 0 <= i < |s[1..]| :: s[1..][i] == s[i + 1] && s[i + 1] != s[0];
  }

  /** A list is as long as the set of its elements exactly when nothing repeats. */
  lemma {:induction false} SizeOfElements<T>(s: seq<T>)
    ensures |Elements(s)| <= |s|
    ensures |Elements(s)| == |s| <==> forall i, j | 0 <= i < j < |s| :: s[i] != s[j]
  {
    if s != [] {
      SizeOfElements(s[1..]);
      assert s == [s[0]] + s[1..];
      assert Elements(s) == Elements(s[1..]) + {s[0]};
      if s[0] in s[1..] {
        assert Elements(s) == Elements(s[1..]);
        var k :| 0 <= k < |s[1..]| && s[1..][k] == s[0];
        assert s[0] == s[k + 1];
      } else {
        assert |Elements(s)| == |Elements(s[1..])| + 1;
        DistinctCons(s);
      }
    }
  }

  lemma NamesCounted(def: Definition)
    ensures var names := NameList(def.states);
      && Elements(names) == Names(def)
      && (|Elements(names)| == |names| <==> DistinctNames(def.states))
  {
    SizeOfElements(NameList(def.states));
  }

  /** What each error says of the definition; the checks that come before it passed. */
  ghost predicate Explains(def: Definition, error: GraphError) {
    match error
    case DuplicateStates => !DistinctNames(def.states)
    case UnknownInitial => DistinctNames(def.states) && def.initialState !in Names(def)
    case FromUnknown(s) => s !in Names(def) && exists t | t in def.transitions :: t.fromState == s
    case ToUnknown(s) => s !in Names(def) && exists t | t in def.transitions :: t.toState == s && t.fromState in Names(def)
    case DuplicateTransition(key) =>
      exists i, j | 0 <= i < j < |def.transitions| :: KeyOf(def.transitions[i]) == key && KeyOf(def.transitions[j]) == key
    case NoTerminal =>
      && EndpointsIn(def.transitions, Names(def)) && DistinctTransitions(def.transitions)
      && forall s | s in def.states :: !s.terminal
  }

  lemma KeySeen(ts: seq<Transition>, i: nat)
    requires i < |ts| && KeyOf(ts[i]) in Keys(ts[..i])
    ensures exists k, j | 0 <= k < j < |ts| :: KeyOf(ts[k]) == KeyOf(ts[i]) && KeyOf(ts[j]) == KeyOf(ts[i])
  {
    var t :| t in ts[..i] && KeyOf(t) == KeyOf(ts[i]);
    var k :| 0 <= k < i && ts[..i][k] == t;
    assert KeyOf(ts[k]) == KeyOf(ts[i]);
  }

  /** The first transition that goes wrong, in the order of the checks. */
  method CheckTransitions(def: Definition, names: seq<string>) returns (error: Option<GraphError>)
    requires forall s :: s in names <==> s in Names(def)
    ensures error.None? <==> EndpointsIn(def.transitions, Names(def)) && DistinctTransitions(def.transitions)
    ensures error.Some? ==> Explains(def, error.value)
  {
    var seen: set<TransitionKey> := {};
    for i := 0 to |def.transitions|
      invariant seen == Keys(def.transitions[..i])
      invariant EndpointsIn(def.transitions[..i], Names(def))
      invariant DistinctTransitions(def.transitions[..i])
    {
      var t := def.transitions[i];
      assert def.transitions[..i + 1] == def.transitions[..i] + [t];
      OneMore(def.transitions[..i], t, Names(def));
      PrefixesGood(def.transitions, i + 1, Names(def));
      if t.fromState !in names {
        return Some(FromUnknown(t.fromState));
      }
      if t.toState !in names {
        return Some(ToUnknown(t.toState));
      }
      if KeyOf(t) in seen {
        KeySeen(def.transitions, i);
        return Some(DuplicateTransition(KeyOf(t)));
      }
      seen := seen + {KeyOf(t)};
    }
    assert def.transitions[..|def.transitions|] == def.transitions;
    return None;
  }

  method CheckGraph(def: Definition) returns (error: Option<GraphError>)
    ensures error.None? <==> Consistent(def)
    ensures error.Some? ==> Explains(def, error.value)
  {
    var names := NameList(def.states);
    NamesCounted(def);
    if |Elements(names)| != |names| {
      return Some(DuplicateStates);
    }
    assert forall s :: s in names <==> s in Names(def);
    if def.initialState !in names {
      return Some(UnknownInitial);
    }
    error := CheckTransitions(def, names);
    if error.None? && !exists s | s in def.states :: s.terminal {
      return Some(NoTerminal);
    }
  }

  // --------------------------------------------------------------- the one path

  function First(def: Definition, state: string): Option<Transition> {
    var ts := TransitionsFrom(def, state);
    if ts == [] then None else Some(ts[0])
  }

  /** The transition that a run takes out of a state is the one declared first. */
  lemma FirstIff(def: Definition, state: string)
    ensures forall t :: First(def, state) == Some(t) <==>
      exists i | 0 <= i < |def.transitions| ::
        && def.transitions[i] == t && t.fromState == state
        && forall j | 0 <= j < i :: def.transitions[j].fromState != state
    ensures First(def, state) == None <==> forall i | 0 <= i < |def.transitions| :: def.transitions[i].fromState != state
  {
    var places := FromInOrder(def.transitions, state);
    if places != [] {
      var p := places[0];
      assert def.transitions[p] == First(def, state).value;
      forall j | 0 <= j < |def.transitions| && def.transitions[j].fromState == state
        ensures p <= j
      {
        var k :| 0 <= k < |places| && places[k] == j;
      }
    }
  }

  /** The state after `n` transitions from the start, if the path is that long. */
  function PathState(def: Definition, n: nat): Option<string> {
    if n == 0 then Some(def.initialState) else Follow(def, PathState(def, n - 1))
  }

  function Follow(def: Definition, state: Option<string>): Option<string> {
    match state
    case None => None
    case Some(s) => if First(def, s).Some? then Some(First(def, s).value.toState) else None
  }

  /** The transition taken out of the `n`-th state of the path. */
  function PathTransition(def: Definition, n: nat): Option<Transition> {
    match PathState(def, n)
    case None => None
    case Some(s) => First(def, s)
  }

  /** The path stops after `n` transitions. */
  predicate PathEnds(def: Definition, n: nat) {
    PathState(def, n).Some? && PathTransition(def, n).None?
  }

  lemma {:induction false} PathDefinedBefore(def: Definition, i: nat, n: nat)
    requires i <= n && PathState(def, n).Some?
    ensures PathState(def, i).Some?
    ensures i < n ==> PathTransition(def, i).Some?
    decreases n - i
  {
    if i < n {
      PathDefinedBefore(def, i + 1, n);
    }
  }

  lemma {:induction false} PathRepeats(def: Definition, i: nat, j: nat, m: nat)
    requires PathState(def, i) == PathState(def, j)
    ensures PathState(def, i + m) == PathState(def, j + m)
  {
    if m > 0 {
      PathRepeats(def, i, j, m - 1);
    }
  }

  /** A path that ends visits no state twice. */
  lemma EndingPathDistinct(def: Definition, n: nat, i: nat, j: nat)
    requires PathEnds(def, n) && i < j <= n
    ensures PathState(def, i) != PathState(def, j)
  {
    if PathState(def, i) == PathState(def, j) {
      PathRepeats(def, i, j, n - j);
      PathDefinedBefore(def, i + (n - j), n);
    }
  }

  /** A path that comes back to a state never ends. */
  lemma LoopNeverEnds(def: Definition, i: nat, j: nat, n: nat)
    requires i < j && PathState(def, i).Some? && PathState(def, i) == PathState(def, j)
    ensures !PathEnds(def, n)
  {
    if PathEnds(def, n) {
      if j <= n {
        EndingPathDistinct(def, n, i, j);
      } else {
        PathDefinedBefore(def, n + 1, j);
      }
    }
  }

  /** An ending path has only one length. */
  lemma PathEndUnique(def: Definition, m: nat, n: nat)
    requires PathEnds(def, m) && PathEnds(def, n)
    ensures m == n
  {
    if m < n {
      PathDefinedBefore(def, m, n);
    } else if n < m {
      PathDefinedBefore(def, n, m);
    }
  }

  lemma {:induction false} PathInGraph(def: Definition, n: nat)
    requires Consistent(def) && PathState(def, n).Some?
    ensures PathState(def, n).value in Names(def)
  {
    if n > 0 {
      PathDefinedBefore(def, n - 1, n);
      FromIsFilter(def.transitions, PathState(def, n - 1).value);
      assert PathTransition(def, n - 1).value in TransitionsFrom(def, PathState(def, n - 1).value);
    }
  }

  ghost function PathStates(def: Definition, n: nat): (r: seq<string>)
    requires PathState(def, n).Some?
    ensures |r| == n + 1
    ensures forall i | 0 <= i <= n :: PathState(def, i) == Some(r[i])
  {
    if n == 0 then [def.initialState]
    else
      PathDefinedBefore(def, n - 1, n);
      PathStates(def, n - 1) + [PathState(def, n).value]
  }

  lemma PathStatesDistinct(def: Definition, n: nat)
    requires PathEnds(def, n)
    ensures |Elements(PathStates(def, n))| == n + 1
  {
    var visited := PathStates(def, n);
    forall i, j | 0 <= i < j < |visited|
      ensures visited[i] != visited[j]
    {
      EndingPathDistinct(def, n, i, j);
    }
    SizeOfElements(visited);
  }

  lemma PathStatesInGraph(def: Definition, n: nat)
    requires Consistent(def) && PathState(def, n).Some?
    ensures Elements(PathStates(def, n)) <= Names(def)
  {
    var visited := PathStates(def, n);
    forall s | s in visited
      ensures s in Names(def)
    {
      var i :| 0 <= i < |visited| && visited[i] == s;
      assert PathState(def, i) == Some(s);
      PathInGraph(def, i);
    }
  }

  /** Pigeonhole: a path that ends is shorter than the number of states. */
  lemma EndingPathShort(def: Definition, n: nat)
    requires Consistent(def) && PathEnds(def, n)
    ensures n + 1 <= |def.states|
  {
    PathStatesDistinct(def, n);
    PathStatesInGraph(def, n);
    SubsetSize(Elements(PathStates(def, n)), Names(def));
    NamesAtMost(def);
  }

  lemma NamesAtMost(def: Definition)
    ensures |Names(def)| <= |def.states|
  {
    var names := NameList(def.states);
    SizeOfElements(names);
    forall n | n in Names(def)
      ensures n in Elements(names)
    {
      var i :| 0 <= i < |def.states| && def.states[i].name == n;
      assert names[i] == n;
    }
    SubsetSize(Names(def), Elements(names));
  }

  lemma {:induction false} SubsetSize<T>(a: set<T>, b: set<T>)
    requires a <= b
    ensures |a| <= |b|
  {
    assert b == a + (b - a);
  }
}
