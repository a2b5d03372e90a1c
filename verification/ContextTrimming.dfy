/**
 * The context handed to the assistant: which messages go in, how they form turns, and which turns
 * and tool results are dropped, oldest first, until the serialised context fits its limit.
 */
module ContextTrimming {
  import opened Common

  /** Identifiers are compared as texts; here they are numbers in that order. */
  datatype MessageRow = MessageRow(id: Id, turnId: Id, isAssistant: bool, createdAt: int, turnCreatedAt: int)

  datatype Turn = Turn(id: Id, time: int, isProtected: bool, messages: seq<MessageRow>)

  datatype Tool = Tool(id: Id, time: int)

  // ---------------------------------------------------------------- the eviction loop

  datatype Item = TurnItem(turn: Turn) | ToolItem(tool: Tool)

  function Unprotected(turns: seq<Turn>): seq<Turn> {
    if turns == [] then []
    else if turns[0].isProtected then Unprotected(turns[1..])
    else [turns[0]] + Unprotected(turns[1..])
  }

  function Shielded(turns: seq<Turn>): seq<Turn> {
    if turns == [] then []
    else if turns[0].isProtected then [turns[0]] + Shielded(turns[1..])
    else Shielded(turns[1..])
  }

  predicate TurnGoesFirst(turn: Turn, tool: Tool) {
    turn.time < tool.time || (turn.time == tool.time && turn.id <= tool.id)
  }

  /** Turns and tools in one list, oldest first. */
  function Merge(turns: seq<Turn>, tools: seq<Tool>): seq<Item>
    decreases |turns| + |tools|
  {
    if turns == [] && tools == [] then []
    else if turns != [] && (tools == [] || TurnGoesFirst(turns[0], tools[0])) then [TurnItem(turns[0])] + Merge(turns[1..], tools)
    else [ToolItem(tools[0])] + Merge(turns, tools[1..])
  }

  /** What may be dropped, in the order in which it is. */
  function Evictable(turns: seq<Turn>, tools: seq<Tool>): seq<Item> {
    Merge(Unprotected(turns), tools)
  }

  function FirstUnprotected(turns: seq<Turn>): (i: nat)
    ensures i <= |turns| && (i < |turns| ==> !turns[i].isProtected)
    ensures forall j :: 0 <= j < i ==> turns[j].isProtected
  {
    if turns == [] || !turns[0].isProtected then 0 else 1 + FirstUnprotected(turns[1..])
  }

  function Without(turns: seq<Turn>, i: nat): seq<Turn>
    requires i < |turns|
  {
    turns[..i] + turns[i + 1..]
  }

  lemma {:induction false} WithoutFirstUnprotected(turns: seq<Turn>)
    ensures var i := FirstUnprotected(turns);
      && (i == |turns| <==> Unprotected(turns) == [])
      && (i < |turns| ==>
           && Unprotected(turns) == [turns[i]] + Unprotected(Without(turns, i))
           && Shielded(Without(turns, i)) == Shielded(turns))
  {
    if turns != [] {
      if turns[0].isProtected {
        WithoutFirstUnprotected(turns[1..]);
        var i := FirstUnprotected(turns);
        if i < |turns| {
          assert Without(turns, i)[1..] == Without(turns[1..], i - 1);
        }
      } else {
        assert Without(turns, 0) == turns[1..];
      }
    }
  }

  datatype Kept = Kept(turns: seq<Turn>, tools: seq<Tool>)

  /** One round: the older of the oldest unprotected turn and the oldest tool goes. */
  function Evict(k: Kept): Kept
    requires Evictable(k.turns, k.tools) != []
  {
    WithoutFirstUnprotected(k.turns);
    var i := FirstUnprotected(k.turns);
    if i < |k.turns| && (k.tools == [] || TurnGoesFirst(k.turns[i], k.tools[0])) then Kept(Without(k.turns, i), k.tools)
    else Kept(k.turns, k.tools[1..])
  }

  lemma EvictDropsOldest(k: Kept)
    requires Evictable(k.turns, k.tools) != []
    ensures Evictable(Evict(k).turns, Evict(k).tools) == Evictable(k.turns, k.tools)[1..]
    ensures Shielded(Evict(k).turns) == Shielded(k.turns)
  {
    WithoutFirstUnprotected(k.turns);
    var i := FirstUnprotected(k.turns);
    if i < |k.turns| {
      assert Unprotected(k.turns)[1..] == Unprotected(Without(k.turns, i));
    }
  }

  /** What remains of a context after `n` rounds. */
  function Dropped(k: Kept, n: nat): Kept
    requires n <= |Evictable(k.turns, k.tools)|
    decreases n
  {
    if n == 0 then k
    else
      EvictDropsOldest(k);
      Dropped(Evict(k), n - 1)
  }

  /** After `n` rounds exactly the `n` oldest droppable items are gone, and nothing protected is. */
  lemma {:induction false} DroppedIsSuffix(k: Kept, n: nat)
    requires n <= |Evictable(k.turns, k.tools)|
    ensures var d := Dropped(k, n);
      && Evictable(d.turns, d.tools) == Evictable(k.turns, k.tools)[n..]
      && Shielded(d.turns) == Shielded(k.turns)
    decreases n
  {
    if n > 0 {
      EvictDropsOldest(k);
      DroppedIsSuffix(Evict(k), n - 1);
    }
  }

  lemma {:induction false} DroppedStep(k: Kept, n: nat)
    requires n < |Evictable(k.turns, k.tools)|
    ensures var d := Dropped(k, n); Evictable(d.turns, d.tools) != [] && Dropped(k, n + 1) == Evict(d)
    decreases n
  {
    DroppedIsSuffix(k, n);
    if n > 0 {
      EvictDropsOldest(k);
      DroppedStep(Evict(k), n - 1);
    }
  }

  function SizeAfter(k: Kept, n: nat, size: Kept -> nat): nat
    requires n <= |Evictable(k.turns, k.tools)|
  {
    size(Dropped(k, n))
  }

  method FindUnprotected(turns: seq<Turn>) returns (i: nat)
    ensures i == FirstUnprotected(turns)
  {
    i := 0;
    while i < |turns| && turns[i].isProtected
      invariant i <= |turns|
      invariant FirstUnprotected(turns) == i + FirstUnprotected(turns[i..])
    {
      assert turns[i..][1..] == turns[i + 1..];
      i := i + 1;
    }
  }

  /** The result of dropping the least number of items, oldest first, that fits the limit. */
  ghost predicate FitsFirst(context: Kept, kept: Kept, size: Kept -> nat, limit: nat) {
    exists n: nat :: FitsAfter(context, kept, size, limit, n)
  }

  ghost predicate FitsAfter(context: Kept, kept: Kept, size: Kept -> nat, limit: nat, n: nat) {
    && n <= |Evictable(context.turns, context.tools)|
    && kept == Dropped(context, n) && size(kept) <= limit
    && (forall j :: 0 <= j < n ==> SizeAfter(context, j, size) > limit)
  }

  /** Not even dropping everything that may be dropped is enough. */
  ghost predicate NeverFits(context: Kept, size: Kept -> nat, limit: nat) {
    forall j :: 0 <= j <= |Evictable(context.turns, context.tools)| ==> SizeAfter(context, j, size) > limit
  }

  /** The loop of the assembler over any measure of the serialised context. */
  method Trim(context: Kept, size: Kept -> nat, limit: nat) returns (result: Option<Kept>)
    ensures result.Some? ==> FitsFirst(context, result.value, size, limit)
    ensures result.None? <==> NeverFits(context, size, limit)
  {
    var turns, tools := context.turns, context.tools;
    ghost var dropped: nat := 0;
    while size(Kept(turns, tools)) > limit
      invariant dropped <= |Evictable(context.turns, context.tools)|
      invariant Kept(turns, tools) == Dropped(context, dropped)
      invariant forall j :: 0 <= j < dropped ==> SizeAfter(context, j, size) > limit
      decreases |turns| + |tools|
    {
      DroppedIsSuffix(context, dropped);
      WithoutFirstUnprotected(turns);
      var oldestTurn := FindUnprotected(turns);
      if oldestTurn == |turns| && tools == [] {
        return None;
      }
      MergeIsEmpty(Unprotected(turns), tools);
      DroppedStep(context, dropped);
      if oldestTurn < |turns| && (tools == [] || TurnGoesFirst(turns[oldestTurn], tools[0])) {
        turns := turns[..oldestTurn] + turns[oldestTurn + 1..];
      } else {
        tools := tools[1..];
      }
      dropped := dropped + 1;
    }
    assert FitsAfter(context, Kept(turns, tools), size, limit, dropped);
    assert SizeAfter(context, dropped, size) <= limit;
    return Some(Kept(turns, tools));
  }

  lemma MergeIsEmpty(turns: seq<Turn>, tools: seq<Tool>)
    ensures Merge(turns, tools) == [] <==> turns == [] && tools == []
  {
  }

  function TimeOf(i: Item): int {
    match i
    case TurnItem(t) => t.time
    case ToolItem(t) => t.time
  }

  function IdOf(i: Item): Id {
    match i
    case TurnItem(t) => t.id
    case ToolItem(t) => t.id
  }

  /** Earlier, or at the same time and no later by identifier. */
  predicate NoLater(time: int, id: Id, time': int, id': Id) {
    time < time' || (time == time' && id <= id')
  }

  predicate TurnsInOrder(turns: seq<Turn>) {
    forall i, j :: 0 <= i < j < |turns| ==> NoLater(turns[i].time, turns[i].id, turns[j].time, turns[j].id)
  }

  predicate ToolsInOrder(tools: seq<Tool>) {
    forall i, j :: 0 <= i < j < |tools| ==> NoLater(tools[i].time, tools[i].id, tools[j].time, tools[j].id)
  }

  lemma {:induction false} MergeHolds(turns: seq<Turn>, tools: seq<Tool>)
    ensures forall x :: x in Merge(turns, tools) <==> (x.TurnItem? && x.turn in turns) || (x.ToolItem? && x.tool in tools)
    decreases |turns| + |tools|
  {
    if turns != [] && (tools == [] || TurnGoesFirst(turns[0], tools[0])) {
      MergeHolds(turns[1..], tools);
      assert turns == [turns[0]] + turns[1..];
    } else if tools != [] {
      MergeHolds(turns, tools[1..]);
      assert tools == [tools[0]] + tools[1..];
    }
  }

  predicate OldestFirst(m: seq<Item>) {
    forall i, j :: 0 <= i < j < |m| ==> NoLater(TimeOf(m[i]), IdOf(m[i]), TimeOf(m[j]), IdOf(m[j]))
  }

  lemma AfterHead(m: seq<Item>)
    requires m != [] && OldestFirst(m[1..])
    requires forall i :: 0 < i < |m| ==> NoLater(TimeOf(m[0]), IdOf(m[0]), TimeOf(m[i]), IdOf(m[i]))
    ensures OldestFirst(m)
  {
    forall i, j | 0 <= i < j < |m| ensures NoLater(TimeOf(m[i]), IdOf(m[i]), TimeOf(m[j]), IdOf(m[j])) {
      if i > 0 {
        assert m[i] == m[1..][i - 1] && m[j] == m[1..][j - 1];
      }
    }
  }

  /** The order of eviction is that of time, then of identifiers, when turns and tools are each in it. */
  lemma {:induction false} MergeIsOldestFirst(turns: seq<Turn>, tools: seq<Tool>)
    requires TurnsInOrder(turns) && ToolsInOrder(tools)
    ensures OldestFirst(Merge(turns, tools))
    decreases |turns| + |tools|
  {
    if turns != [] && (tools == [] || TurnGoesFirst(turns[0], tools[0])) {
      MergeIsOldestFirst(turns[1..], tools);
      assert Merge(turns, tools)[1..] == Merge(turns[1..], tools);
      HeadIsOldest(turns, tools, turns[0].time, turns[0].id);
      AfterHead(Merge(turns, tools));
    } else if tools != [] {
      MergeIsOldestFirst(turns, tools[1..]);
      assert Merge(turns, tools)[1..] == Merge(turns, tools[1..]);
      HeadIsOldest(turns, tools, tools[0].time, tools[0].id);
      AfterHead(Merge(turns, tools));
    }
  }

  lemma HeadIsOldest(turns: seq<Turn>, tools: seq<Tool>, time: int, id: Id)
    requires TurnsInOrder(turns) && ToolsInOrder(tools)
    requires turns != [] ==> NoLater(time, id, turns[0].time, turns[0].id)
    requires tools != [] ==> NoLater(time, id, tools[0].time, tools[0].id)
    ensures var m := Merge(turns, tools); forall i :: 0 <= i < |m| ==> NoLater(time, id, TimeOf(m[i]), IdOf(m[i]))
  {
    MergeHolds(turns, tools);
    forall i | 0 <= i < |Merge(turns, tools)|
      ensures NoLater(time, id, TimeOf(Merge(turns, tools)[i]), IdOf(Merge(turns, tools)[i]))
    {
      assert Merge(turns, tools)[i] in Merge(turns, tools);
    }
  }
}
