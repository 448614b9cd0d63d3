/** Model profiles of one Organization and their six assignment keys, through every lifecycle operation. */
module AiProfiles {

  import opened Wrappers

  const MERGE_MAX := 25

  type ProfileId = nat

  datatype Key = Primary | Summarization | Tuning | ImageGeneration | VideoGeneration | ChatDefault

  const ALL_KEYS := [Primary, Summarization, Tuning, ImageGeneration, VideoGeneration, ChatDefault]

  datatype Profile = Profile(
    name: string, connection: string, model: string, capabilities: string,
    transport: Option<string>, chat: bool, capabilityState: string)

  datatype Org = Org(profiles: map<ProfileId, Profile>, assignments: map<Key, ProfileId>)

  const EMPTY := Org(map[], map[])

  /** A partial update; absent fields keep their value. The transport may be set to null explicitly. */
  datatype Change = Change(
    name: Option<string>, connection: Option<string>, model: Option<string>, capabilities: Option<string>,
    transport: Option<Option<string>>, chat: Option<bool>, capabilityState: Option<string>)

  datatype Outcome = Done | Rejected(code: string) | ConstraintFailed

  // ----- Names -----

  function Lower(c: char): char {
    if 'A' <= c <= 'Z' then (c as int + 32) as char else c
  }

  /** The NOCASE collation folds ASCII letters only. */
  function Fold(name: string): (folded: string)
    ensures |folded| == |name|
  {
    if |name| == 0 then [] else Fold(name[..|name| - 1]) + [Lower(name[|name| - 1])]
  }

  predicate NameTaken(profiles: map<ProfileId, Profile>, name: string, except: Option<ProfileId>) {
    exists id :: id in profiles && Some(id) != except && Fold(profiles[id].name) == Fold(name)
  }

  // ----- The operations -----

  /** Plain INSERTs, one per key; the first key already mapped fails the statement. */
  function InsertAll(assignments: map<Key, ProfileId>, keys: seq<Key>, id: ProfileId): (map<Key, ProfileId>, bool)
    decreases |keys|
  {
    if |keys| == 0 then (assignments, true)
    else if keys[0] in assignments then (assignments, false)
    else InsertAll(assignments[keys[0] := id], keys[1..], id)
  }

  function Create(org: Org, id: ProfileId, profile: Profile, connectionOk: bool): (Org, Outcome) {
    if !connectionOk then (org, Rejected("AI_INVALID_PROFILE"))
    else if NameTaken(org.profiles, profile.name, None) then (org, Rejected("AI_PROFILE_EXISTS"))
    else
      var isFirst := org.profiles == map[];
      var chat := profile.chat || isFirst;
      var profiles := org.profiles[id := profile.(chat := chat)];
      if isFirst then
        var (assignments, ok) := InsertAll(org.assignments, ALL_KEYS, id);
        (Org(profiles, assignments), if ok then Done else ConstraintFailed)
      else if chat && ChatDefault !in org.assignments
      then (Org(profiles, org.assignments[ChatDefault := id]), Done)
      else (Org(profiles, org.assignments), Done)
  }

  function OrElse<T>(change: Option<T>, current: T): T {
    if change.Some? then change.value else current
  }

  /** A new connection or model forgets the transport; any change of the three forgets what is known of capabilities. */
  function Updated(row: Profile, change: Change): Profile {
    var connection, model := OrElse(change.connection, row.connection), OrElse(change.model, row.model);
    var moved := connection != row.connection || model != row.model;
    var transport := if moved then None else OrElse(change.transport, row.transport);
    Profile(
      OrElse(change.name, row.name), connection, model, OrElse(change.capabilities, row.capabilities),
      transport, OrElse(change.chat, row.chat),
      if moved || transport != row.transport then "unknown" else OrElse(change.capabilityState, row.capabilityState))
  }

  predicate Holds(org: Org, key: Key, id: ProfileId) {
    key in org.assignments && org.assignments[key] == id
  }

  function Update(org: Org, id: ProfileId, change: Change, connectionOk: bool): (Org, Outcome) {
    if id !in org.profiles then (org, Rejected("AI_PROFILE_NOT_FOUND"))
    else
      var row := org.profiles[id];
      var next := Updated(row, change);
      if change.name.Some? && NameTaken(org.profiles, next.name, Some(id)) then (org, Rejected("AI_PROFILE_EXISTS"))
      else if !connectionOk then (org, Rejected("AI_INVALID_PROFILE"))
      else if !next.chat && Holds(org, ChatDefault, id) then (org, Rejected("AI_CHAT_DEFAULT_HELD"))
      else
        var assignments := if next.chat && ChatDefault !in org.assignments then org.assignments[ChatDefault := id] else org.assignments;
        (Org(org.profiles[id := next], assignments), Done)
  }

  function Delete(org: Org, id: ProfileId): (Org, Outcome) {
    if id !in org.profiles then (org, Rejected("AI_PROFILE_NOT_FOUND"))
    else if exists k :: k in org.assignments && org.assignments[k] == id then (org, Rejected("AI_PROFILE_REFERENCED"))
    else (org.(profiles := org.profiles - {id}), Done)
  }

  predicate HasDuplicates(ids: seq<ProfileId>) {
    exists i, j :: 0 <= i < j < |ids| && ids[i] == ids[j]
  }

  function Sources(ids: seq<ProfileId>, target: ProfileId): set<ProfileId> {
    (set id | id in ids) - {target}
  }

  function Reassigned(assignments: map<Key, ProfileId>, sources: set<ProfileId>, target: ProfileId): map<Key, ProfileId> {
    map k | k in assignments :: if assignments[k] in sources then target else assignments[k]
  }

  function Merge(org: Org, ids: seq<ProfileId>, target: ProfileId): (Org, Outcome) {
    if HasDuplicates(ids) then (org, Rejected("AI_INVALID_MERGE"))
    else if |ids| < 2 || |ids| > MERGE_MAX then (org, Rejected("AI_INVALID_MERGE"))
    else if target !in ids then (org, Rejected("AI_INVALID_MERGE"))
    else if exists id :: id in ids && id !in org.profiles then (org, Rejected("AI_PROFILE_NOT_FOUND"))
    else
      var sources := Sources(ids, target);
      var chat := exists id :: id in ids && org.profiles[id].chat;
      (Org(
         org.profiles[target := org.profiles[target].(chat := chat)] - sources,
         Reassigned(org.assignments, sources, target)),
       Done)
  }

  function Assign(org: Org, key: Key, profile: Option<ProfileId>, connectionOk: bool): (Org, Outcome) {
    match profile
    case None =>
      if key == Primary || key == ChatDefault then (org, Rejected("AI_ASSIGNMENT_REQUIRED"))
      else (org.(assignments := org.assignments - {key}), Done)
    case Some(id) =>
      if id !in org.profiles then (org, Rejected("AI_PROFILE_NOT_FOUND"))
      else if !connectionOk then (org, Rejected("AI_INVALID_PROFILE"))
      else if key == ChatDefault && !org.profiles[id].chat then (org, Rejected("AI_PROFILE_NOT_CHAT"))
      else (org.(assignments := org.assignments[key := id]), Done)
  }

  datatype Op =
    | CreateOp(id: ProfileId, profile: Profile, connectionOk: bool)
    | UpdateOp(id: ProfileId, change: Change, connectionOk: bool)
    | DeleteOp(id: ProfileId)
    | MergeOp(ids: seq<ProfileId>, target: ProfileId)
    | AssignOp(key: Key, assignee: Option<ProfileId>, connectionOk: bool)

  /** Profile ids are random UUIDs: a create never reuses one that exists. */
  function Step(org: Org, op: Op): (Org, Outcome) {
    match op
    case CreateOp(id, profile, ok) => if id in org.profiles then (org, Rejected("")) else Create(org, id, profile, ok)
    case UpdateOp(id, change, ok) => Update(org, id, change, ok)
    case DeleteOp(id) => Delete(org, id)
    case MergeOp(ids, target) => Merge(org, ids, target)
    case AssignOp(key, assignee, ok) => Assign(org, key, assignee, ok)
  }

  function Run(org: Org, ops: seq<Op>): Org
    decreases |ops|
  {
    if |ops| == 0 then org else Run(Step(org, ops[0]).0, ops[1..])
  }

  // ----- Invariants -----

  predicate Inv(org: Org) {
    && (forall k :: k in org.assignments ==> org.assignments[k] in org.profiles)
    && (org.profiles != map[] ==> Primary in org.assignments && ChatDefault in org.assignments)
    && (ChatDefault in org.assignments && org.assignments[ChatDefault] in org.profiles ==> org.profiles[org.assignments[ChatDefault]].chat)
    && (forall a, b :: a in org.profiles && b in org.profiles && Fold(org.profiles[a].name) == Fold(org.profiles[b].name) ==> a == b)
  }

  lemma {:induction false} InsertAllIsExact(assignments: map<Key, ProfileId>, keys: seq<Key>, id: ProfileId)
    requires forall i, j :: 0 <= i < j < |keys| ==> keys[i] != keys[j]
    ensures InsertAll(assignments, keys, id).1 <==> forall k :: k in keys ==> k !in assignments
    ensures InsertAll(assignments, keys, id).1 ==>
      forall k :: k in InsertAll(assignments, keys, id).0 <==> k in assignments || k in keys
    ensures InsertAll(assignments, keys, id).1 ==>
      forall k :: k in InsertAll(assignments, keys, id).0 ==>
        InsertAll(assignments, keys, id).0[k] == if k in keys then id else assignments[k]
    decreases |keys|
  {
    if |keys| > 0 {
      assert keys == [keys[0]] + keys[1..];
      assert keys[0] !in keys[1..];
      if keys[0] !in assignments {
        InsertAllIsExact(assignments[keys[0] := id], keys[1..], id);
      }
    }
  }

  /** The first profile of an empty Organization takes all six keys; none of its inserts can conflict. */
  lemma FirstTakesAllKeys(id: ProfileId)
    ensures InsertAll(map[], ALL_KEYS, id).1
    ensures forall k: Key :: k in InsertAll(map[], ALL_KEYS, id).0 && InsertAll(map[], ALL_KEYS, id).0[k] == id
  {
    InsertAllIsExact(map[], ALL_KEYS, id);
    forall k: Key ensures k in ALL_KEYS {
      match k
      case Primary => assert ALL_KEYS[0] == k;
      case Summarization => assert ALL_KEYS[1] == k;
      case Tuning => assert ALL_KEYS[2] == k;
      case ImageGeneration => assert ALL_KEYS[3] == k;
      case VideoGeneration => assert ALL_KEYS[4] == k;
      case ChatDefault => assert ALL_KEYS[5] == k;
    }
  }

  /** What every operation keeps: the invariant and, once there is a profile, that there is one. */
  predicate Safe(org: Org, org': Org) {
    Inv(org') && (org.profiles != map[] ==> org'.profiles != map[])
  }

  lemma CreateIsSafe(org: Org, id: ProfileId, profile: Profile, ok: bool)
    requires Inv(org) && id !in org.profiles
    ensures Safe(org, Create(org, id, profile, ok).0) && Create(org, id, profile, ok).1 != ConstraintFailed
  {
    if org.profiles == map[] {
      assert org.assignments == map[];
      FirstTakesAllKeys(id);
    }
  }

  lemma UpdateIsSafe(org: Org, id: ProfileId, change: Change, ok: bool)
    requires Inv(org)
    ensures Safe(org, Update(org, id, change, ok).0) && Update(org, id, change, ok).1 != ConstraintFailed
  {
  }

  lemma DeleteIsSafe(org: Org, id: ProfileId)
    requires Inv(org)
    ensures Safe(org, Delete(org, id).0) && Delete(org, id).1 != ConstraintFailed
  {
    if Delete(org, id).1 == Done {
      assert org.assignments[Primary] in org.profiles - {id};
    }
  }

  lemma MergeIsSafe(org: Org, ids: seq<ProfileId>, target: ProfileId)
    requires Inv(org)
    ensures Safe(org, Merge(org, ids, target).0) && Merge(org, ids, target).1 != ConstraintFailed
  {
    var org' := Merge(org, ids, target).0;
    if Merge(org, ids, target).1 == Done {
      assert target in org'.profiles;
      assert forall id :: id in org'.profiles ==> id in org.profiles && org'.profiles[id].name == org.profiles[id].name;
      if ChatDefault in org.assignments {
        var holder := org.assignments[ChatDefault];
        assert holder in org.profiles && org.profiles[holder].chat;
        assert org'.assignments[ChatDefault] == target ==> org'.profiles[target].chat;
      }
    }
  }

  lemma AssignIsSafe(org: Org, key: Key, profile: Option<ProfileId>, ok: bool)
    requires Inv(org)
    ensures Safe(org, Assign(org, key, profile, ok).0) && Assign(org, key, profile, ok).1 != ConstraintFailed
  {
  }

  lemma StepIsSafe(org: Org, op: Op)
    requires Inv(org)
    ensures Safe(org, Step(org, op).0) && Step(org, op).1 != ConstraintFailed
  {
    match op
    case CreateOp(id, profile, ok) =>
      if id !in org.profiles {
        CreateIsSafe(org, id, profile, ok);
      }
    case UpdateOp(id, change, ok) => UpdateIsSafe(org, id, change, ok);
    case DeleteOp(id) => DeleteIsSafe(org, id);
    case MergeOp(ids, target) => MergeIsSafe(org, ids, target);
    case AssignOp(key, assignee, ok) => AssignIsSafe(org, key, assignee, ok);
  }

  lemma {:induction false} RunKeepsInv(org: Org, ops: seq<Op>)
    requires Inv(org)
    ensures Inv(Run(org, ops))
    ensures org.profiles != map[] ==> Run(org, ops).profiles != map[]
    decreases |ops|
  {
    if |ops| > 0 {
      StepIsSafe(org, ops[0]);
      RunKeepsInv(Step(org, ops[0]).0, ops[1..]);
    }
  }

  /** After any sequence of operations on an empty Organization: assignments name existing profiles, the default chat
    * profile is chat-enabled, names are unique, and from the first profile on there is always one, with primary and
    * chat_default mapped; and no operation has ever failed on a constraint. */
  lemma LifecycleIsSafe(ops: seq<Op>, next: Op)
    ensures Inv(Run(EMPTY, ops))
    ensures var org := Run(EMPTY, ops);
      && (forall k :: k in org.assignments ==> org.assignments[k] in org.profiles)
      && (ChatDefault in org.assignments ==> org.profiles[org.assignments[ChatDefault]].chat)
      && (forall a, b :: a in org.profiles && b in org.profiles && SameName(org.profiles[a].name, org.profiles[b].name) ==> a == b)
      && (org.profiles != map[] ==> Primary in org.assignments && ChatDefault in org.assignments)
    ensures Step(Run(EMPTY, ops), next).1 != ConstraintFailed
    ensures Run(EMPTY, ops).profiles != map[] ==> Step(Run(EMPTY, ops), next).0.profiles != map[]
  {
    RunKeepsInv(EMPTY, ops);
    StepIsSafe(Run(EMPTY, ops), next);
    var org := Run(EMPTY, ops);
    forall a, b | a in org.profiles && b in org.profiles && SameName(org.profiles[a].name, org.profiles[b].name) ensures a == b {
      FoldExactly(org.profiles[a].name, org.profiles[b].name);
    }
  }

  /** In a reachable Organization the chat_default backfill never has anything to fill: a create beyond the first and any
    * update leave the assignments alone. */
  lemma BackfillIsUnreachable(ops: seq<Op>, id: ProfileId, profile: Profile, change: Change, ok: bool)
    requires Run(EMPTY, ops).profiles != map[]
    ensures var org := Run(EMPTY, ops);
      && Create(org, id, profile, ok).0.assignments == org.assignments
      && Update(org, id, change, ok).0.assignments == org.assignments
  {
    RunKeepsInv(EMPTY, ops);
  }

  lemma MergedProfiles(org: Org, ids: seq<ProfileId>, target: ProfileId)
    requires Merge(org, ids, target).1 == Done
    ensures var org', chat := Merge(org, ids, target).0, exists id :: id in ids && org.profiles[id].chat;
      && org'.profiles.Keys == org.profiles.Keys - Sources(ids, target)
      && target in org'.profiles && org'.profiles[target] == org.profiles[target].(chat := chat)
      && (forall id :: id in org'.profiles && id != target ==> org'.profiles[id] == org.profiles[id])
  {
  }

  lemma ReassignedAt(assignments: map<Key, ProfileId>, ids: seq<ProfileId>, target: ProfileId, k: Key)
    requires k in assignments && target in ids
    ensures Reassigned(assignments, Sources(ids, target), target)[k] == if assignments[k] in ids then target else assignments[k]
  {
  }

  /** A merge removes exactly the sources, keeps every mapped key mapped, moves exactly the keys of the sources to the
    * target, and leaves the target chat-enabled exactly when one of the selected profiles was. */
  lemma MergeConserves(org: Org, ids: seq<ProfileId>, target: ProfileId)
    requires Merge(org, ids, target).1 == Done
    ensures var org', chat := Merge(org, ids, target).0, exists id :: id in ids && org.profiles[id].chat;
      && org'.profiles.Keys == org.profiles.Keys - Sources(ids, target)
      && target in org'.profiles && org'.profiles[target] == org.profiles[target].(chat := chat)
      && (forall id :: id in org'.profiles && id != target ==> org'.profiles[id] == org.profiles[id])
      && org'.assignments.Keys == org.assignments.Keys
      && (forall k :: k in org.assignments ==> org'.assignments[k] == if org.assignments[k] in ids then target else org.assignments[k])
  {
    MergedProfiles(org, ids, target);
    forall k | k in org.assignments
      ensures Merge(org, ids, target).0.assignments[k] == if org.assignments[k] in ids then target else org.assignments[k]
    {
      ReassignedAt(org.assignments, ids, target, k);
    }
  }

  /** A reachable profile can be deleted exactly when no key maps to it; the last profile never can. */
  lemma DeleteIsExact(ops: seq<Op>, id: ProfileId)
    requires id in Run(EMPTY, ops).profiles
    ensures var org := Run(EMPTY, ops);
      && (Delete(org, id).1 == Done <==> forall k :: k in org.assignments ==> org.assignments[k] != id)
      && (org.profiles.Keys == {id} ==> Delete(org, id).1 != Done)
  {
    RunKeepsInv(EMPTY, ops);
  }

  // ----- What the operations write, column by column -----

  /** Equal letters, or one the ASCII upper case of the other. */
  ghost predicate SameLetter(c: char, d: char) {
    || c == d
    || ('A' <= c <= 'Z' && d as int == c as int + 32)
    || ('A' <= d <= 'Z' && c as int == d as int + 32)
  }

  ghost predicate SameName(a: string, b: string) {
    |a| == |b| && forall i :: 0 <= i < |a| ==> SameLetter(a[i], b[i])
  }

  lemma SameEnds(x: string, c: char, y: string, d: char)
    requires |x| == |y|
    ensures x + [c] == y + [d] <==> x == y && c == d
  {
    if x + [c] == y + [d] {
      assert (x + [c])[..|x|] == x && (y + [d])[..|x|] == y;
      assert (x + [c])[|x|] == c && (y + [d])[|x|] == d;
    }
  }

  lemma {:induction false} FoldExactly(a: string, b: string)
    ensures Fold(a) == Fold(b) <==> SameName(a, b)
    decreases |a|
  {
    if |a| == |b| > 0 {
      var x, y := a[..|a| - 1], b[..|b| - 1];
      FoldExactly(x, y);
      assert Fold(a) == Fold(x) + [Lower(a[|a| - 1])] && Fold(b) == Fold(y) + [Lower(b[|b| - 1])];
      SameEnds(Fold(x), Lower(a[|a| - 1]), Fold(y), Lower(b[|b| - 1]));
      assert a == x + [a[|a| - 1]] && b == y + [b[|b| - 1]];
      assert Lower(a[|a| - 1]) == Lower(b[|b| - 1]) <==> SameLetter(a[|a| - 1], b[|b| - 1]);
    }
  }

  /** Another profile has this name, upper and lower case being the same. */
  ghost predicate Clashes(profiles: map<ProfileId, Profile>, name: string, except: Option<ProfileId>) {
    exists x :: x in profiles && Some(x) != except && SameName(profiles[x].name, name)
  }

  lemma ClashesExactly(profiles: map<ProfileId, Profile>, name: string, except: Option<ProfileId>)
    ensures NameTaken(profiles, name, except) <==> Clashes(profiles, name, except)
  {
    forall x | x in profiles ensures Fold(profiles[x].name) == Fold(name) <==> SameName(profiles[x].name, name) {
      FoldExactly(profiles[x].name, name);
    }
  }

  /** The first profile is chat-enabled and takes every key; a later one is stored as asked and takes none. */
  ghost predicate Created(before: Org, id: ProfileId, asked: Profile, after: Org) {
    && after.profiles.Keys == before.profiles.Keys + {id}
    && (forall x :: x in before.profiles ==> after.profiles[x] == before.profiles[x])
    && (var row := after.profiles[id];
        && row.name == asked.name && row.connection == asked.connection && row.model == asked.model
        && row.capabilities == asked.capabilities && row.transport == asked.transport && row.capabilityState == asked.capabilityState
        && (row.chat <==> asked.chat || before.profiles == map[]))
    && (if before.profiles == map[] then forall k: Key :: k in after.assignments && after.assignments[k] == id
        else after.assignments == before.assignments)
  }

  ghost function CreateAnswer(org: Org, asked: Profile, ok: bool): Outcome {
    if !ok then Rejected("AI_INVALID_PROFILE")
    else if Clashes(org.profiles, asked.name, None) then Rejected("AI_PROFILE_EXISTS")
    else Done
  }

  lemma CreateExactly(org: Org, id: ProfileId, profile: Profile, ok: bool)
    requires Inv(org) && id !in org.profiles
    ensures Create(org, id, profile, ok).1 == CreateAnswer(org, profile, ok)
    ensures if Create(org, id, profile, ok).1 == Done then Created(org, id, profile, Create(org, id, profile, ok).0)
            else Create(org, id, profile, ok).0 == org
  {
    ClashesExactly(org.profiles, profile.name, None);
    if org.profiles == map[] {
      assert org.assignments == map[];
      FirstTakesAllKeys(id);
    }
  }

  /** Each given column is stored as given and each other kept, but for the two resets. */
  ghost predicate Rewritten(was: Profile, change: Change, row: Profile) {
    var moved := row.connection != was.connection || row.model != was.model;
    && row.name == (if change.name.Some? then change.name.value else was.name)
    && row.connection == (if change.connection.Some? then change.connection.value else was.connection)
    && row.model == (if change.model.Some? then change.model.value else was.model)
    && row.capabilities == (if change.capabilities.Some? then change.capabilities.value else was.capabilities)
    && row.chat == (if change.chat.Some? then change.chat.value else was.chat)
    && row.transport == (if moved then None else if change.transport.Some? then change.transport.value else was.transport)
    && row.capabilityState ==
       (if moved || row.transport != was.transport then "unknown"
        else if change.capabilityState.Some? then change.capabilityState.value else was.capabilityState)
  }

  /** Why an update is refused, in the order of the checks. */
  ghost function UpdateAnswer(org: Org, id: ProfileId, change: Change, ok: bool): Outcome {
    if id !in org.profiles then Rejected("AI_PROFILE_NOT_FOUND")
    else if change.name.Some? && Clashes(org.profiles, change.name.value, Some(id)) then Rejected("AI_PROFILE_EXISTS")
    else if !ok then Rejected("AI_INVALID_PROFILE")
    else if change.chat != Some(true) && (change.chat == Some(false) || !org.profiles[id].chat) && Holds(org, ChatDefault, id)
    then Rejected("AI_CHAT_DEFAULT_HELD")
    else Done
  }

  /** What an update leaves: this row rewritten, every other one and their number as before. */
  ghost predicate Stored(before: Org, id: ProfileId, change: Change, after: Org) {
    && id in before.profiles && before.profiles.Keys == after.profiles.Keys
    && Rewritten(before.profiles[id], change, after.profiles[id])
    && (forall x :: x in before.profiles && x != id ==> after.profiles[x] == before.profiles[x])
    && (change == Change(None, None, None, None, None, None, None) ==> after.profiles[id] == before.profiles[id])
  }

  lemma UpdateExactly(org: Org, id: ProfileId, change: Change, ok: bool)
    ensures var (org', outcome) := Update(org, id, change, ok);
      && outcome == UpdateAnswer(org, id, change, ok)
      && (if outcome == Done then Stored(org, id, change, org') else org' == org)
      && (Inv(org) ==> Inv(org') && org'.assignments == org.assignments)
  {
    if change.name.Some? {
      ClashesExactly(org.profiles, change.name.value, Some(id));
    }
    if Inv(org) {
      UpdateIsSafe(org, id, change, ok);
    }
  }

  /** Why a merge is refused: a repeated id, fewer than two or more than 25, a target outside, a profile that is not there. */
  ghost function MergeAnswer(org: Org, ids: seq<ProfileId>, target: ProfileId): Outcome {
    if exists i, j :: 0 <= i < j < |ids| && ids[i] == ids[j] then Rejected("AI_INVALID_MERGE")
    else if !(2 <= |ids| <= 25) || target !in ids then Rejected("AI_INVALID_MERGE")
    else if exists i :: 0 <= i < |ids| && ids[i] !in org.profiles then Rejected("AI_PROFILE_NOT_FOUND")
    else Done
  }

  // ----- The tables as an object -----

  class ProfileStore {
    var profiles: map<ProfileId, Profile>
    var assignments: map<Key, ProfileId>

    ghost function Contents(): Org
      reads this
    {
      Org(profiles, assignments)
    }

    constructor ()
      ensures Contents() == EMPTY
    {
      profiles, assignments := map[], map[];
    }

    method CreateProfile(id: ProfileId, profile: Profile, connectionOk: bool) returns (outcome: Outcome)
      requires id !in profiles
      modifies this
      ensures (Contents(), outcome) == Create(old(Contents()), id, profile, connectionOk)
      ensures Inv(old(Contents())) ==> outcome == CreateAnswer(old(Contents()), profile, connectionOk)
      ensures Inv(old(Contents())) ==>
        if outcome == Done then Created(old(Contents()), id, profile, Contents()) else Contents() == old(Contents())
    {
      if Inv(Contents()) {
        CreateExactly(Contents(), id, profile, connectionOk);
      }
      if !connectionOk {
        return Rejected("AI_INVALID_PROFILE");
      }
      if NameTaken(profiles, profile.name, None) {
        return Rejected("AI_PROFILE_EXISTS");
      }
      var isFirst := profiles == map[];
      var chat := profile.chat || isFirst;
      profiles := profiles[id := profile.(chat := chat)];
      if isFirst {
        ghost var goal := InsertAll(assignments, ALL_KEYS, id);
        for i := 0 to |ALL_KEYS|
          invariant profiles == old(profiles)[id := profile.(chat := chat)]
          invariant goal == InsertAll(assignments, ALL_KEYS[i..], id)
        {
          var key := ALL_KEYS[i];
          assert ALL_KEYS[i..][0] == key && ALL_KEYS[i..][1..] == ALL_KEYS[i + 1..];
          if key in assignments {
            return ConstraintFailed;
          }
          assignments := assignments[key := id];
        }
      } else if chat && ChatDefault !in assignments {
        assignments := assignments[ChatDefault := id];
      }
      return Done;
    }

    /** All or nothing, and on this profile alone. A profile that moves to another connection or model never keeps its
      * transport, and its capabilities are unknown whenever any of the three changed. The holder of chat_default stays
      * chat-enabled, so the invariant stands and in a non-empty Organization no assignment moves. */
    method UpdateProfile(id: ProfileId, change: Change, connectionOk: bool) returns (outcome: Outcome)
      modifies this
      ensures (Contents(), outcome) == Update(old(Contents()), id, change, connectionOk)
      ensures outcome == UpdateAnswer(old(Contents()), id, change, connectionOk)
      ensures if outcome == Done then Stored(old(Contents()), id, change, Contents()) else Contents() == old(Contents())
      ensures Inv(old(Contents())) ==> Inv(Contents()) && assignments == old(assignments)
    {
      UpdateExactly(Contents(), id, change, connectionOk);
      if id !in profiles {
        return Rejected("AI_PROFILE_NOT_FOUND");
      }
      var next := Updated(profiles[id], change);
      if change.name.Some? && NameTaken(profiles, next.name, Some(id)) {
        return Rejected("AI_PROFILE_EXISTS");
      }
      if !connectionOk {
        return Rejected("AI_INVALID_PROFILE");
      }
      if !next.chat && ChatDefault in assignments && assignments[ChatDefault] == id {
        return Rejected("AI_CHAT_DEFAULT_HELD");
      }
      profiles := profiles[id := next];
      if next.chat && ChatDefault !in assignments {
        assignments := assignments[ChatDefault := id];
      }
      return Done;
    }

    method DeleteProfile(id: ProfileId) returns (outcome: Outcome)
      modifies this`profiles
      ensures (Contents(), outcome) == Delete(old(Contents()), id)
      ensures outcome ==
        if id !in old(profiles) then Rejected("AI_PROFILE_NOT_FOUND")
        else if exists k :: k in assignments && assignments[k] == id then Rejected("AI_PROFILE_REFERENCED")
        else Done
      ensures profiles == if outcome == Done then old(profiles) - {id} else old(profiles)
    {
      if id !in profiles {
        return Rejected("AI_PROFILE_NOT_FOUND");
      }
      if exists k :: k in assignments && assignments[k] == id {
        return Rejected("AI_PROFILE_REFERENCED");
      }
      profiles := profiles - {id};
      return Done;
    }

    method MergeProfiles(ids: seq<ProfileId>, target: ProfileId) returns (outcome: Outcome)
      modifies this
      ensures (Contents(), outcome) == Merge(old(Contents()), ids, target)
      ensures outcome == MergeAnswer(old(Contents()), ids, target)
      ensures outcome != Done ==> Contents() == old(Contents())
    {
      if exists i, j :: 0 <= i < j < |ids| && ids[i] == ids[j] {
        return Rejected("AI_INVALID_MERGE");
      }
      if |ids| < 2 || |ids| > MERGE_MAX || target !in ids {
        return Rejected("AI_INVALID_MERGE");
      }
      var chat := false;
      for i := 0 to |ids|
        invariant forall j :: 0 <= j < i ==> ids[j] in profiles
        invariant chat <==> exists j :: 0 <= j < i && profiles[ids[j]].chat
      {
        if ids[i] !in profiles {
          assert ids[i] in ids;
          return Rejected("AI_PROFILE_NOT_FOUND");
        }
        chat := chat || profiles[ids[i]].chat;
      }
      var sources := Sources(ids, target);
      assert chat <==> exists id :: id in ids && profiles[id].chat;
      Reassign(sources, target);
      profiles := profiles[target := profiles[target].(chat := chat)];
      DropProfiles(sources);
      return Done;
    }

    /** Every assignment that points at a source moves to the target, one row at a time. */
    method Reassign(sources: set<ProfileId>, target: ProfileId)
      modifies this`assignments
      ensures assignments == Reassigned(old(assignments), sources, target)
    {
      ghost var before := assignments;
      var todo := assignments.Keys;
      while todo != {}
        invariant todo <= before.Keys && assignments.Keys == before.Keys
        invariant forall k :: k in before ==>
          assignments[k] == if k !in todo && before[k] in sources then target else before[k]
        decreases todo
      {
        var key :| key in todo;
        todo := todo - {key};
        if assignments[key] in sources {
          assignments := assignments[key := target];
        }
      }
    }

    method DropProfiles(ids: set<ProfileId>)
      modifies this`profiles
      ensures profiles == old(profiles) - ids
    {
      ghost var before := profiles;
      var todo := ids;
      while todo != {}
        invariant todo <= ids
        invariant profiles == before - (ids - todo)
        decreases todo
      {
        var id :| id in todo;
        todo := todo - {id};
        profiles := profiles - {id};
      }
    }

    /** Only this key can move. It is cleared exactly if it is one of the four optional ones; it is mapped exactly to an
      * existing profile with a usable connection, which for chat_default is chat-enabled. The invariant stands. */
    method SetAssignment(key: Key, profile: Option<ProfileId>, connectionOk: bool) returns (outcome: Outcome)
      modifies this`assignments
      ensures (Contents(), outcome) == Assign(old(Contents()), key, profile, connectionOk)
      ensures outcome != Done ==> assignments == old(assignments)
      ensures assignments - {key} == old(assignments) - {key}
      ensures outcome ==
        if profile.None? then if key == Primary || key == ChatDefault then Rejected("AI_ASSIGNMENT_REQUIRED") else Done
        else if profile.value !in profiles then Rejected("AI_PROFILE_NOT_FOUND")
        else if !connectionOk then Rejected("AI_INVALID_PROFILE")
        else if key == ChatDefault && !profiles[profile.value].chat then Rejected("AI_PROFILE_NOT_CHAT")
        else Done
      ensures outcome == Done ==> if profile.None? then key !in assignments else Holds(Contents(), key, profile.value)
      ensures profile.None? ==> (outcome == Done <==> key in {Summarization, Tuning, ImageGeneration, VideoGeneration})
      ensures profile.Some? ==> (outcome == Done <==>
        profile.value in profiles && connectionOk && (key == ChatDefault ==> profiles[profile.value].chat))
      ensures Inv(old(Contents())) ==> Inv(Contents())
    {
      if profile.None? {
        if key == Primary || key == ChatDefault {
          return Rejected("AI_ASSIGNMENT_REQUIRED");
        }
        assignments := assignments - {key};
        return Done;
      }
      var id := profile.value;
      if id !in profiles {
        return Rejected("AI_PROFILE_NOT_FOUND");
      }
      if !connectionOk {
        return Rejected("AI_INVALID_PROFILE");
      }
      if key == ChatDefault && !profiles[id].chat {
        return Rejected("AI_PROFILE_NOT_CHAT");
      }
      assignments := assignments[key := id];
      return Done;
    }
  }

}
