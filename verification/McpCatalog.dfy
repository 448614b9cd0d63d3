/** The tool catalog of one MCP Connection: syncs against the vendor's list, admin toggles, and qualified tool names. */
module McpCatalog {

  import opened Wrappers

  const AUTO_REMOVED_PREFIX := "Removed from server catalog at "
  const MANUAL_DISABLE_REASON := "Manually disabled by admin"

  /** A listed tool, description and schema already in their stored form. */
  datatype Tool = Tool(name: string, description: string, schema: string)

  datatype Row = Row(description: string, schema: string, enabled: bool, reason: Option<string>, syncedAt: string, updatedAt: string)

  type Catalog = map<string, Row>

  predicate StartsWith(text: string, prefix: string) {
    |prefix| <= |text| && text[..|prefix|] == prefix
  }

  predicate AutoRemoved(row: Row) {
    !row.enabled && row.reason.Some? && StartsWith(row.reason.value, AUTO_REMOVED_PREFIX)
  }

  function NamesOf(tools: seq<Tool>): set<string> {
    set t | t in tools :: t.name
  }

  predicate Duplicated(tools: seq<Tool>) {
    exists i, j :: 0 <= i < j < |tools| && tools[i].name == tools[j].name
  }

  // ----- Planning -----

  datatype Plan = Plan(insert: seq<Tool>, autoDisable: seq<string>, restore: seq<string>)

  function Inserts(existing: Catalog, discovered: seq<Tool>): seq<Tool> {
    if |discovered| == 0 then []
    else
      var before, tool := Inserts(existing, discovered[..|discovered| - 1]), discovered[|discovered| - 1];
      if tool.name !in existing then before + [tool] else before
  }

  function Restores(existing: Catalog, discovered: seq<Tool>): seq<string> {
    if |discovered| == 0 then []
    else
      var before, tool := Restores(existing, discovered[..|discovered| - 1]), discovered[|discovered| - 1];
      if tool.name in existing && AutoRemoved(existing[tool.name]) then before + [tool.name] else before
  }

  /** `order` is the order in which the SELECT returned the rows. */
  function Vanished(existing: Catalog, order: seq<string>, found: set<string>): seq<string>
    requires forall n :: n in order ==> n in existing
  {
    if |order| == 0 then []
    else
      var before, name := Vanished(existing, order[..|order| - 1], found), order[|order| - 1];
      if name !in found && existing[name].enabled then before + [name] else before
  }

  function PlanOf(existing: Catalog, order: seq<string>, discovered: seq<Tool>): Plan
    requires forall n :: n in order ==> n in existing
  {
    Plan(Inserts(existing, discovered), Vanished(existing, order, NamesOf(discovered)), Restores(existing, discovered))
  }

  method PlanCatalogSync(existing: Catalog, order: seq<string>, discovered: seq<Tool>) returns (plan: Plan)
    requires forall n :: n in order ==> n in existing
    ensures plan == PlanOf(existing, order, discovered)
  {
    var found := NamesOf(discovered);
    var insert: seq<Tool> := [];
    var autoDisable: seq<string> := [];
    var restore: seq<string> := [];
    for i := 0 to |discovered|
      invariant insert == Inserts(existing, discovered[..i])
      invariant restore == Restores(existing, discovered[..i])
    {
      var tool := discovered[i];
      assert discovered[..i + 1][..i] == discovered[..i];
      if tool.name !in existing {
        insert := insert + [tool];
      } else if AutoRemoved(existing[tool.name]) {
        restore := restore + [tool.name];
      }
    }
    assert discovered[..|discovered|] == discovered;
    for i := 0 to |order|
      invariant autoDisable == Vanished(existing, order[..i], found)
    {
      var name := order[i];
      assert order[..i + 1][..i] == order[..i];
      if name !in found && existing[name].enabled {
        autoDisable := autoDisable + [name];
      }
    }
    assert order[..|order|] == order;
    plan := Plan(insert, autoDisable, restore);
  }

  /** What each list of a plan holds. */
  lemma {:induction false} InsertsAre(existing: Catalog, discovered: seq<Tool>)
    ensures forall t :: t in Inserts(existing, discovered) <==> t in discovered && t.name !in existing
    ensures (forall t :: t in discovered ==> t.name in existing) ==> Inserts(existing, discovered) == []
    decreases |discovered|
  {
    if |discovered| > 0 {
      InsertsAre(existing, discovered[..|discovered| - 1]);
      assert discovered == discovered[..|discovered| - 1] + [discovered[|discovered| - 1]];
    }
  }

  lemma {:induction false} RestoresAre(existing: Catalog, discovered: seq<Tool>)
    ensures forall n :: n in Restores(existing, discovered) <==> n in NamesOf(discovered) && n in existing && AutoRemoved(existing[n])
    ensures (forall n :: n in NamesOf(discovered) && n in existing ==> !AutoRemoved(existing[n])) ==> Restores(existing, discovered) == []
    decreases |discovered|
  {
    if |discovered| > 0 {
      RestoresAre(existing, discovered[..|discovered| - 1]);
      assert discovered == discovered[..|discovered| - 1] + [discovered[|discovered| - 1]];
      assert NamesOf(discovered) == NamesOf(discovered[..|discovered| - 1]) + {discovered[|discovered| - 1].name};
    }
  }

  lemma {:induction false} VanishedAre(existing: Catalog, order: seq<string>, found: set<string>)
    requires forall n :: n in order ==> n in existing
    ensures forall n :: n in Vanished(existing, order, found) <==> n in order && n !in found && existing[n].enabled
    ensures (forall n :: n in order && n !in found ==> !existing[n].enabled) ==> Vanished(existing, order, found) == []
    decreases |order|
  {
    if |order| > 0 {
      VanishedAre(existing, order[..|order| - 1], found);
      assert order == order[..|order| - 1] + [order[|order| - 1]];
    }
  }

  // ----- Applying -----

  function NewRow(tool: Tool, now: string): Row {
    Row(tool.description, tool.schema, true, None, now, now)
  }

  function DisabledRow(row: Row, now: string): Row {
    row.(enabled := false, reason := Some(AUTO_REMOVED_PREFIX + now), updatedAt := now)
  }

  function RestoredRow(row: Row, now: string): Row {
    row.(enabled := true, reason := None, syncedAt := now, updatedAt := now)
  }

  /** One whole sync as its effect on each row. */
  function Synced(catalog: Catalog, discovered: seq<Tool>, now: string): Catalog {
    map n | n in catalog.Keys + NamesOf(discovered) ::
      (if n !in catalog then NewRow(ToolNamed(discovered, n), now)
       else if n in NamesOf(discovered) && AutoRemoved(catalog[n]) then RestoredRow(catalog[n], now)
       else if n !in NamesOf(discovered) && catalog[n].enabled then DisabledRow(catalog[n], now)
       else catalog[n]).(syncedAt := now)
  }

  function ToolNamed(tools: seq<Tool>, name: string): Tool
    requires name in NamesOf(tools)
  {
    if tools[|tools| - 1].name == name then tools[|tools| - 1]
    else
      assert tools == tools[..|tools| - 1] + [tools[|tools| - 1]];
      ToolNamed(tools[..|tools| - 1], name)
  }

  function Toggled(catalog: Catalog, name: string, enabled: bool, now: string): Catalog {
    if name !in catalog then catalog
    else catalog[name := catalog[name].(enabled := enabled, reason := if enabled then None else Some(MANUAL_DISABLE_REASON), updatedAt := now)]
  }

  // ----- Whole syncs and toggles in any order -----

  datatype Op =
    | Sync(discovered: seq<Tool>, now: string)
    | Toggle(name: string, enabled: bool, now: string)

  /** `seen` and `lastAction` are history: every tool ever listed by a successful sync, and the last admin action that
    * found its row. */
  datatype State = State(catalog: Catalog, seen: set<string>, lastAction: map<string, bool>)

  const INITIAL := State(map[], {}, map[])

  /** A list with a repeated name fails the whole sync. */
  function Step(s: State, op: Op): State {
    match op
    case Sync(discovered, now) =>
      if Duplicated(discovered) then s
      else s.(catalog := Synced(s.catalog, discovered, now), seen := s.seen + NamesOf(discovered))
    case Toggle(name, enabled, now) =>
      if name !in s.catalog then s
      else s.(catalog := Toggled(s.catalog, name, enabled, now), lastAction := s.lastAction[name := enabled])
  }

  function Run(s: State, ops: seq<Op>): State
    decreases |ops|
  {
    if |ops| == 0 then s else Run(Step(s, ops[0]), ops[1..])
  }

  predicate Disabled(s: State, name: string) {
    name in s.lastAction && !s.lastAction[name]
  }

  predicate Inv(s: State) {
    && s.catalog.Keys == s.seen
    && s.lastAction.Keys <= s.seen
    && (forall n :: n in s.catalog ==>
          if Disabled(s, n) then !s.catalog[n].enabled && s.catalog[n].reason == Some(MANUAL_DISABLE_REASON)
          else s.catalog[n].enabled || AutoRemoved(s.catalog[n]))
  }

  lemma ReasonsDiffer(now: string)
    ensures !StartsWith(MANUAL_DISABLE_REASON, AUTO_REMOVED_PREFIX)
    ensures StartsWith(AUTO_REMOVED_PREFIX + now, AUTO_REMOVED_PREFIX)
  {
    assert MANUAL_DISABLE_REASON[0] == 'M' && AUTO_REMOVED_PREFIX[0] == 'R';
  }

  lemma StepKeepsInv(s: State, op: Op)
    requires Inv(s)
    ensures Inv(Step(s, op))
  {
    ReasonsDiffer(op.now);
  }

  lemma {:induction false} RunKeepsInv(s: State, ops: seq<Op>)
    requires Inv(s)
    ensures Inv(Run(s, ops))
    decreases |ops|
  {
    if |ops| > 0 {
      StepKeepsInv(s, ops[0]);
      RunKeepsInv(Step(s, ops[0]), ops[1..]);
    }
  }

  /** What one sync makes of one row, column by column: a tool never seen is stored as listed, enabled; a listed one that an
    * earlier sync had removed is enabled again; an enabled one that is no longer listed is disabled with the removal as its
    * reason; every other keeps its switch and reason. Content is never rewritten, and every row is marked as synced. */
  lemma SyncedRow(catalog: Catalog, discovered: seq<Tool>, now: string, n: string)
    requires !Duplicated(discovered) && n in Synced(catalog, discovered, now)
    ensures var row := Synced(catalog, discovered, now)[n];
      && row.syncedAt == now
      && (n !in catalog ==>
            && Tool(n, row.description, row.schema) in discovered
            && row.enabled && row.reason == None && row.updatedAt == now)
      && (n in catalog ==>
            var was := catalog[n];
            var listed := exists t :: t in discovered && t.name == n;
            var removed := !was.enabled && was.reason.Some? && exists at :: was.reason == Some("Removed from server catalog at " + at);
            && row.description == was.description && row.schema == was.schema
            && (listed && removed ==> row.enabled && row.reason == None && row.updatedAt == now)
            && (!listed && was.enabled ==> !row.enabled && row.reason == Some("Removed from server catalog at " + now) && row.updatedAt == now)
            && (!(listed && removed) && !(!listed && was.enabled) ==>
                  row.enabled == was.enabled && row.reason == was.reason && row.updatedAt == was.updatedAt))
  {
    if n !in catalog {
      ToolNamedIs(discovered, n);
    } else if catalog[n].reason.Some? {
      RemovedReads(catalog[n].reason.value);
    }
  }

  lemma RemovedReads(reason: string)
    ensures StartsWith(reason, AUTO_REMOVED_PREFIX) <==> exists at :: reason == "Removed from server catalog at " + at
  {
    if StartsWith(reason, AUTO_REMOVED_PREFIX) {
      assert reason == "Removed from server catalog at " + reason[|AUTO_REMOVED_PREFIX|..];
    }
  }

  /** Right after a sync there is a row for every tool ever listed, and it is enabled exactly when this sync listed it
    * and the last admin action on it was not a disable. */
  lemma SyncIsExact(ops: seq<Op>, discovered: seq<Tool>, now: string)
    requires !Duplicated(discovered)
    ensures var s, s' := Run(INITIAL, ops), Step(Run(INITIAL, ops), Sync(discovered, now));
      && s'.catalog.Keys == s.seen + NamesOf(discovered)
      && (forall n :: n in s'.catalog ==> (s'.catalog[n].enabled <==> n in NamesOf(discovered) && !Disabled(s, n)))
  {
    RunKeepsInv(INITIAL, ops);
    ReasonsDiffer(now);
  }

  predicate DisabledByHand(catalog: Catalog, name: string) {
    name in catalog && !catalog[name].enabled && catalog[name].reason == Some(MANUAL_DISABLE_REASON)
  }

  /** From any catalog: a disable stands through every further sync and toggle until somebody enables that tool. */
  lemma {:induction false} DisableStands(s: State, ops: seq<Op>, name: string)
    requires DisabledByHand(s.catalog, name)
    requires forall i :: 0 <= i < |ops| ==> !(ops[i].Toggle? && ops[i].name == name && ops[i].enabled)
    ensures DisabledByHand(Run(s, ops).catalog, name)
    decreases |ops|
  {
    if |ops| > 0 {
      ReasonsDiffer(ops[0].now);
      DisableStands(Step(s, ops[0]), ops[1..], name);
    }
  }

  /** Repeating a sync plans nothing, in any reachable catalog. */
  lemma ResyncPlansNothing(ops: seq<Op>, discovered: seq<Tool>, now: string, order: seq<string>)
    requires !Duplicated(discovered)
    requires var s := Step(Run(INITIAL, ops), Sync(discovered, now)); forall n :: n in order ==> n in s.catalog
    ensures PlanOf(Step(Run(INITIAL, ops), Sync(discovered, now)).catalog, order, discovered) == Plan([], [], [])
  {
    var s := Step(Run(INITIAL, ops), Sync(discovered, now));
    RunKeepsInv(INITIAL, ops);
    StepKeepsInv(Run(INITIAL, ops), Sync(discovered, now));
    SyncIsExact(ops, discovered, now);
    InsertsAre(s.catalog, discovered);
    RestoresAre(s.catalog, discovered);
    VanishedAre(s.catalog, order, NamesOf(discovered));
    assert forall t :: t in discovered ==> t.name in NamesOf(discovered);
    ReasonsDiffer(now);
  }

  // ----- A toggle inside a sync -----

  /** The batch of a plan, on one row that exists when the batch runs. */
  function BatchRow(row: Row, name: string, plan: Plan, now: string): Row {
    var disabled := if name in plan.autoDisable then DisabledRow(row, now) else row;
    var restored := if name in plan.restore then RestoredRow(disabled, now) else disabled;
    restored.(syncedAt := now)
  }

  /** A disable that lands between a sync's read and its batch survives exactly when the plan neither restores nor
    * auto-removes that tool; otherwise the batch enables the tool again or forgets the admin's reason. */
  lemma DisableInsideSyncExactly(catalog: Catalog, order: seq<string>, discovered: seq<Tool>, name: string, at: string, now: string)
    requires name in catalog && forall n :: n in order <==> n in catalog
    ensures var plan := PlanOf(catalog, order, discovered);
      var after := BatchRow(Toggled(catalog, name, false, at)[name], name, plan, now);
      !after.enabled && after.reason == Some(MANUAL_DISABLE_REASON) <==>
        !(name in NamesOf(discovered) && AutoRemoved(catalog[name])) && !(name !in NamesOf(discovered) && catalog[name].enabled)
  {
    RestoresAre(catalog, discovered);
    VanishedAre(catalog, order, NamesOf(discovered));
    ReasonsDiffer(now);
  }

  /** One such sync: an admin disables a tool that had vanished and is listed again, after the sync read it and before its
    * batch. The batch restores it. */
  lemma DisableIsOverwritten()
    ensures var gone := Row("", "{}", false, Some(AUTO_REMOVED_PREFIX + "1"), "1", "1");
      var listed := [Tool("t", "", "{}")];
      var disabled := Toggled(map["t" := gone], "t", false, "2");
      && DisabledByHand(disabled, "t")
      && BatchRow(disabled["t"], "t", PlanOf(map["t" := gone], ["t"], listed), "3").enabled
  {
    var gone := Row("", "{}", false, Some(AUTO_REMOVED_PREFIX + "1"), "1", "1");
    var listed := [Tool("t", "", "{}")];
    assert listed[0].name in NamesOf(listed);
    ReasonsDiffer("1");
    RestoresAre(map["t" := gone], listed);
  }

  // ----- The catalog as an object -----

  function Inserted(catalog: Catalog, tools: seq<Tool>, now: string): Catalog {
    if |tools| == 0 then catalog
    else Inserted(catalog, tools[..|tools| - 1], now)[tools[|tools| - 1].name := NewRow(tools[|tools| - 1], now)]
  }

  lemma {:induction false} InsertedIs(catalog: Catalog, tools: seq<Tool>, now: string)
    ensures Inserted(catalog, tools, now).Keys == catalog.Keys + NamesOf(tools)
    ensures forall n :: n in Inserted(catalog, tools, now) ==>
      Inserted(catalog, tools, now)[n] == if n in NamesOf(tools) then NewRow(ToolNamed(tools, n), now) else catalog[n]
    decreases |tools|
  {
    if |tools| > 0 {
      var init, last := tools[..|tools| - 1], tools[|tools| - 1];
      InsertedIs(catalog, init, now);
      assert tools == init + [last];
      assert NamesOf(tools) == NamesOf(init) + {last.name};
    }
  }

  function DisabledAll(catalog: Catalog, names: seq<string>, now: string): Catalog {
    map n | n in catalog :: if n in names then DisabledRow(catalog[n], now) else catalog[n]
  }

  function RestoredAll(catalog: Catalog, names: seq<string>, now: string): Catalog {
    map n | n in catalog :: if n in names then RestoredRow(catalog[n], now) else catalog[n]
  }

  function Touched(catalog: Catalog, now: string): Catalog {
    map n | n in catalog :: catalog[n].(syncedAt := now)
  }

  /** The batch, statement group by statement group. */
  function Batch(catalog: Catalog, plan: Plan, now: string): Catalog {
    Touched(RestoredAll(DisabledAll(Inserted(catalog, plan.insert, now), plan.autoDisable, now), plan.restore, now), now)
  }

  lemma {:induction false} ToolNamedIs(tools: seq<Tool>, name: string)
    requires name in NamesOf(tools)
    ensures ToolNamed(tools, name) in tools && ToolNamed(tools, name).name == name
    decreases |tools|
  {
    if tools[|tools| - 1].name != name {
      assert tools == tools[..|tools| - 1] + [tools[|tools| - 1]];
      ToolNamedIs(tools[..|tools| - 1], name);
    }
  }

  lemma SameTool(tools: seq<Tool>, a: Tool, b: Tool)
    requires !Duplicated(tools) && a in tools && b in tools && a.name == b.name
    ensures a == b
  {
    var i :| 0 <= i < |tools| && tools[i] == a;
    var j :| 0 <= j < |tools| && tools[j] == b;
  }

  lemma InsertedToolIsListed(catalog: Catalog, discovered: seq<Tool>, name: string)
    requires !Duplicated(discovered)
    ensures name in NamesOf(Inserts(catalog, discovered)) <==> name in NamesOf(discovered) && name !in catalog
    ensures name in NamesOf(Inserts(catalog, discovered)) ==> ToolNamed(Inserts(catalog, discovered), name) == ToolNamed(discovered, name)
  {
    InsertsAre(catalog, discovered);
    var insert := Inserts(catalog, discovered);
    if name in NamesOf(insert) {
      ToolNamedIs(insert, name);
      ToolNamedIs(discovered, name);
      SameTool(discovered, ToolNamed(insert, name), ToolNamed(discovered, name));
    }
  }

  /** The batch of a plan, seen from one row. */
  lemma BatchAt(catalog: Catalog, plan: Plan, now: string, n: string)
    ensures n in Batch(catalog, plan, now) <==> n in catalog || n in NamesOf(plan.insert)
    ensures n in catalog && n !in NamesOf(plan.insert) ==> Batch(catalog, plan, now)[n] == BatchRow(catalog[n], n, plan, now)
    ensures n in NamesOf(plan.insert) && n !in plan.autoDisable && n !in plan.restore ==>
      Batch(catalog, plan, now)[n] == NewRow(ToolNamed(plan.insert, n), now)
  {
    InsertedIs(catalog, plan.insert, now);
  }

  lemma PlanAt(catalog: Catalog, order: seq<string>, discovered: seq<Tool>, n: string)
    requires !Duplicated(discovered) && forall n :: n in order <==> n in catalog
    ensures var plan := PlanOf(catalog, order, discovered);
      && (n in NamesOf(plan.insert) <==> n in NamesOf(discovered) && n !in catalog)
      && (n in plan.restore <==> n in NamesOf(discovered) && n in catalog && AutoRemoved(catalog[n]))
      && (n in plan.autoDisable <==> n in catalog && n !in NamesOf(discovered) && catalog[n].enabled)
      && (n in NamesOf(plan.insert) ==> ToolNamed(plan.insert, n) == ToolNamed(discovered, n))
  {
    InsertedToolIsListed(catalog, discovered, n);
    RestoresAre(catalog, discovered);
    VanishedAre(catalog, order, NamesOf(discovered));
  }

  /** Planning and then applying the plan is the per-row meaning of a sync. */
  lemma BatchOfPlanIsSync(catalog: Catalog, order: seq<string>, discovered: seq<Tool>, now: string)
    requires !Duplicated(discovered) && forall n :: n in order <==> n in catalog
    ensures Batch(catalog, PlanOf(catalog, order, discovered), now) == Synced(catalog, discovered, now)
  {
    var plan := PlanOf(catalog, order, discovered);
    var batch, synced := Batch(catalog, plan, now), Synced(catalog, discovered, now);
    forall n
      ensures n in batch <==> n in synced
      ensures n in synced ==> batch[n] == synced[n]
    {
      PlanAt(catalog, order, discovered, n);
      BatchAt(catalog, plan, now, n);
    }
  }

  class CatalogStore {
    var catalog: Catalog

    constructor ()
      ensures catalog == map[]
    {
      catalog := map[];
    }

    /** Found exactly if the tool has a row; then that row alone changes, and neither its content nor its sync time. A
      * disable outlasts every later sync, whatever the vendor lists; after an enable a sync leaves the tool enabled exactly
      * if it lists it. */
    method SetToolEnabled(name: string, enabled: bool, now: string) returns (found: bool)
      modifies this
      ensures found <==> name in old(catalog)
      ensures catalog == Toggled(old(catalog), name, enabled, now)
      ensures !found ==> catalog == old(catalog)
      ensures catalog.Keys == old(catalog).Keys && forall n :: n in catalog && n != name ==> catalog[n] == old(catalog)[n]
      ensures found ==> catalog[name].enabled == enabled && catalog[name].updatedAt == now
      ensures found ==> (enabled <==> catalog[name].reason.None?) && (!enabled ==> !AutoRemoved(catalog[name]))
      ensures found && !enabled ==> catalog[name].reason == Some("Manually disabled by admin")
      ensures found ==> var was := old(catalog)[name];
        catalog[name].description == was.description && catalog[name].schema == was.schema && catalog[name].syncedAt == was.syncedAt
      ensures found ==> forall discovered, at ::
        Synced(catalog, discovered, at)[name].enabled <==> enabled && name in NamesOf(discovered)
    {
      ReasonsDiffer(now);
      found := name in catalog;
      if found {
        catalog := catalog[name := catalog[name].(enabled := enabled, reason := if enabled then None else Some(MANUAL_DISABLE_REASON), updatedAt := now)];
      }
    }

    /** Undisturbed, a sync changes the rows as `Synced` says; a list with a repeated name changes nothing. */
    method SyncMcpCatalog(discovered: seq<Tool>, order: seq<string>, now: string) returns (ok: bool)
      requires forall n :: n in order <==> n in catalog
      modifies this
      ensures ok <==> !Duplicated(discovered)
      ensures ok <==> forall i, j :: 0 <= i < |discovered| && 0 <= j < |discovered| && i != j ==> discovered[i].name != discovered[j].name
      ensures catalog == if ok then Synced(old(catalog), discovered, now) else old(catalog)
      ensures ok ==> catalog.Keys == old(catalog).Keys + NamesOf(discovered)
      ensures ok ==> forall t :: t in discovered && t.name !in old(catalog) ==> catalog[t.name] == Row(t.description, t.schema, true, None, now, now)
    {
      if Duplicated(discovered) {
        return false;
      }
      var plan := PlanCatalogSync(catalog, order, discovered);
      ApplyPlan(plan, now);
      BatchOfPlanIsSync(old(catalog), order, discovered, now);
      forall t | t in discovered && t.name !in old(catalog) ensures catalog[t.name] == Row(t.description, t.schema, true, None, now, now) {
        SyncedRow(old(catalog), discovered, now, t.name);
        SameTool(discovered, t, Tool(t.name, catalog[t.name].description, catalog[t.name].schema));
      }
      return true;
    }

    method ApplyPlan(plan: Plan, now: string)
      modifies this
      ensures catalog == Batch(old(catalog), plan, now)
    {
      ghost var start := catalog;
      for i := 0 to |plan.insert|
        invariant catalog == Inserted(start, plan.insert[..i], now)
      {
        assert plan.insert[..i + 1][..i] == plan.insert[..i];
        catalog := catalog[plan.insert[i].name := NewRow(plan.insert[i], now)];
      }
      assert plan.insert[..|plan.insert|] == plan.insert;
      DisableRows(plan.autoDisable, now);
      RestoreRows(plan.restore, now);
      catalog := map n | n in catalog :: catalog[n].(syncedAt := now);
    }

    method DisableRows(names: seq<string>, now: string)
      modifies this
      ensures catalog == DisabledAll(old(catalog), names, now)
    {
      ghost var start := catalog;
      for i := 0 to |names|
        invariant catalog == DisabledAll(start, names[..i], now)
      {
        if names[i] in catalog {
          catalog := catalog[names[i] := DisabledRow(catalog[names[i]], now)];
        }
        assert names[..i + 1] == names[..i] + [names[i]];
      }
      assert names[..|names|] == names;
    }

    method RestoreRows(names: seq<string>, now: string)
      modifies this
      ensures catalog == RestoredAll(old(catalog), names, now)
    {
      ghost var start := catalog;
      for i := 0 to |names|
        invariant catalog == RestoredAll(start, names[..i], now)
      {
        if names[i] in catalog {
          catalog := catalog[names[i] := RestoredRow(catalog[names[i]], now)];
        }
        assert names[..i + 1] == names[..i] + [names[i]];
      }
      assert names[..|names|] == names;
    }
  }

}

/** Qualified tool names: `mcp__<connection uuid>__<tool>`. */
module McpNames {

  import opened Wrappers

  const PREFIX := "mcp__"

  function Lower(c: char): char {
    if 'A' <= c <= 'Z' then (c as int + 32) as char else c
  }

  function LowerAll(text: string): (lower: string)
    ensures |lower| == |text|
    ensures forall i :: 0 <= i < |text| ==> lower[i] == Lower(text[i])
  {
    if |text| == 0 then [] else LowerAll(text[..|text| - 1]) + [Lower(text[|text| - 1])]
  }

  predicate IsHex(c: char) {
    '0' <= c <= '9' || 'a' <= c <= 'f' || 'A' <= c <= 'F'
  }

  predicate IsUuid(text: string) {
    && |text| == 36
    && forall i :: 0 <= i < 36 ==> if i == 8 || i == 13 || i == 18 || i == 23 then text[i] == '-' else IsHex(text[i])
  }

  predicate IsLetter(c: char) {
    'a' <= c <= 'z' || 'A' <= c <= 'Z'
  }

  predicate IsToolName(text: string) {
    && 1 <= |text| <= 128 && IsLetter(text[0])
    && forall i :: 0 <= i < |text| ==> IsLetter(text[i]) || '0' <= text[i] <= '9' || text[i] == '_' || text[i] == '.' || text[i] == '-'
  }

  function Qualified(connection: string, tool: string): string {
    PREFIX + LowerAll(connection) + "__" + tool
  }

  /** The first position of a double underscore, or the length when there is none. */
  function Split(text: string): (at: nat)
    ensures at <= |text|
    ensures at < |text| ==> at + 2 <= |text| && text[at] == '_' && text[at + 1] == '_'
    ensures forall i :: 0 <= i < at && i + 1 < |text| ==> !(text[i] == '_' && text[i + 1] == '_')
    decreases |text|
  {
    if |text| < 2 then |text|
    else if text[0] == '_' && text[1] == '_' then 0
    else
      assert forall i :: 0 < i && i + 1 < |text| ==> text[i] == text[1..][i - 1] && text[i + 1] == text[1..][i];
      1 + Split(text[1..])
  }

  function Parse(value: string): Option<(string, string)> {
    if |value| < |PREFIX| || value[..|PREFIX|] != PREFIX then None
    else
      var rest := value[|PREFIX|..];
      var at := Split(rest);
      if at == |rest| || at == 0 then None
      else
        var connection, tool := LowerAll(rest[..at]), rest[at + 2..];
        if !IsUuid(connection) || !IsToolName(tool) then None else Some((connection, tool))
  }

  lemma LowerUuid(text: string)
    requires IsUuid(text)
    ensures IsUuid(LowerAll(text)) && LowerAll(LowerAll(text)) == LowerAll(text)
    ensures forall i :: 0 <= i < 36 ==> LowerAll(text)[i] != '_'
  {
  }

  lemma SplitsAt(text: string, head: string, tail: string)
    requires text == head + "__" + tail && forall i :: 0 <= i < |head| ==> head[i] != '_'
    ensures Split(text) == |head|
  {
    assert text[|head|] == '_' && text[|head| + 1] == '_';
    assert forall i :: 0 <= i < |head| ==> text[i] == head[i];
  }

  /** Code points of the ASCII letters, and of A to F and a to f among them. */
  ghost predicate LetterCode(c: char) {
    65 <= c as int <= 90 || 97 <= c as int <= 122
  }

  ghost predicate DigitCode(c: char) {
    48 <= c as int <= 57
  }

  ghost predicate HexCode(c: char) {
    DigitCode(c) || 65 <= c as int <= 70 || 97 <= c as int <= 102
  }

  /** 36 characters, hyphens at four places, hexadecimal digits at all others. */
  ghost predicate UuidShape(text: string) {
    && |text| == 36 && text[8] == '-' && text[13] == '-' && text[18] == '-' && text[23] == '-'
    && forall i :: 0 <= i < 36 && i !in {8, 13, 18, 23} ==> HexCode(text[i])
  }

  /** A letter, then at most 127 letters, digits, underscores, dots and hyphens. */
  ghost predicate ToolShape(text: string) {
    && 0 < |text| < 129 && LetterCode(text[0])
    && forall i :: 0 <= i < |text| ==> LetterCode(text[i]) || DigitCode(text[i]) || text[i] in {'_', '.', '-'}
  }

  ghost predicate LowerOf(lower: string, text: string) {
    |lower| == |text| && forall i :: 0 <= i < |text| ==> lower[i] == if 65 <= text[i] as int <= 90 then (text[i] as int + 32) as char else text[i]
  }

  lemma UuidExactly(text: string)
    ensures IsUuid(text) <==> UuidShape(text)
  {
  }

  lemma ToolExactly(text: string)
    ensures IsToolName(text) <==> ToolShape(text)
  {
  }

  lemma LowerExactly(lower: string, text: string)
    ensures lower == LowerAll(text) <==> LowerOf(lower, text)
  {
  }

  /** This is how the Connection was written in the qualified name. */
  ghost predicate Writes(value: string, written: string, connection: string, tool: string) {
    value == "mcp__" + written + "__" + tool && UuidShape(written) && ToolShape(tool) && LowerOf(connection, written)
  }

  lemma ParsedIsWritten(value: string, connection: string, tool: string)
    requires Parse(value) == Some((connection, tool))
    ensures exists written :: Writes(value, written, connection, tool)
  {
    var rest := value[|PREFIX|..];
    var written := rest[..Split(rest)];
    LowerIsUuid(written);
    UuidExactly(written);
    ToolExactly(tool);
    LowerExactly(connection, written);
    assert value == PREFIX + rest && rest == written + "__" + tool;
    assert value == "mcp__" + written + "__" + tool;
    assert Writes(value, written, connection, tool);
  }

  lemma WrittenIsParsed(value: string, written: string, connection: string, tool: string)
    requires Writes(value, written, connection, tool)
    ensures Parse(value) == Some((connection, tool))
  {
    UuidExactly(written);
    ToolExactly(tool);
    LowerExactly(connection, written);
    LowerUuid(written);
    var rest := written + "__" + tool;
    assert value == PREFIX + rest;
    assert value[|PREFIX|..] == rest;
    assert forall i :: 0 <= i < 36 ==> written[i] != '_';
    SplitsAt(rest, written, tool);
    assert rest[..36] == written && rest[38..] == tool;
  }

  /** What parses: the prefix, a UUID, a double underscore, a tool name; the UUID is answered in lower case. */
  lemma ParsesExactly(value: string, connection: string, tool: string)
    ensures Parse(value) == Some((connection, tool)) <==> exists written :: Writes(value, written, connection, tool)
  {
    if Parse(value) == Some((connection, tool)) {
      ParsedIsWritten(value, connection, tool);
    }
    if written :| Writes(value, written, connection, tool) {
      WrittenIsParsed(value, written, connection, tool);
    }
  }

  /** Folding case neither makes nor unmakes a UUID. */
  lemma LowerIsUuid(text: string)
    ensures IsUuid(LowerAll(text)) <==> IsUuid(text)
  {
    forall i | 0 <= i < |text| ensures (IsHex(LowerAll(text)[i]) <==> IsHex(text[i])) && (LowerAll(text)[i] == '-' <==> text[i] == '-') {
    }
  }

  /** Every qualified name parses back to its Connection, in lower case, and its tool. */
  lemma QualifiedRoundTrip(connection: string, tool: string)
    requires IsUuid(connection) && IsToolName(tool)
    ensures Parse(Qualified(connection, tool)) == Some((LowerAll(connection), tool))
  {
    var value, lower := Qualified(connection, tool), LowerAll(connection);
    var rest := value[|PREFIX|..];
    LowerUuid(connection);
    assert value == PREFIX + (lower + "__" + tool);
    assert rest == lower + "__" + tool;
    SplitsAt(rest, lower, tool);
    assert rest[..36] == lower && rest[38..] == tool;
  }

  /** Whatever parses is the qualified name of what it parses to, up to the case of the Connection segment. */
  lemma ParsedIsQualified(value: string)
    requires Parse(value).Some?
    ensures var (connection, tool) := Parse(value).value;
      && IsUuid(connection) && IsToolName(tool)
      && |value| == |Qualified(connection, tool)|
      && (Qualified(connection, tool) == value <==> LowerAll(value[|PREFIX|..|PREFIX| + 36]) == value[|PREFIX|..|PREFIX| + 36])
  {
    var (connection, tool) := Parse(value).value;
    var rest := value[|PREFIX|..];
    assert Split(rest) == 36 by {
      assert |connection| == 36;
    }
    LowerUuid(connection);
    assert connection == LowerAll(rest[..36]) && rest[..36] == value[|PREFIX|..|PREFIX| + 36];
    assert value == PREFIX + rest[..36] + "__" + tool;
    assert LowerAll(connection) == connection;
    if Qualified(connection, tool) == value {
      assert Qualified(connection, tool)[|PREFIX|..|PREFIX| + 36] == connection;
    }
  }

}
