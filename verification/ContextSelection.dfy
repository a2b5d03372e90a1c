/** Choosing messages for a context and grouping them into turns. */
module ContextSelection {
  import opened Common
  import opened SeqSums
  import opened Sorting
  import opened ContextTrimming

  // ---------------------------------------------------------------- selection

  /** Newest first, later identifiers first among equals. */
  function Newest(): (MessageRow, MessageRow) -> bool {
    (a: MessageRow, b: MessageRow) => a.createdAt > b.createdAt || (a.createdAt == b.createdAt && a.id >= b.id)
  }

  lemma NewestIsOrder()
    ensures IsOrder(Newest())
  {
  }

  predicate DistinctMessages(rows: seq<MessageRow>) {
    forall i, j :: 0 <= i < j < |rows| ==> rows[i].id != rows[j].id
  }

  /** The assistant message created last, the one with the greatest identifier among equals. */
  predicate IsLatestAssistant(rows: seq<MessageRow>, m: MessageRow) {
    && m in rows && m.isAssistant
    && (forall n :: n in rows && n.isAssistant ==> NoLater(n.createdAt, n.id, m.createdAt, m.id))
  }

  function OtherThan(m: MessageRow): MessageRow -> bool {
    (n: MessageRow) => n.id != m.id
  }

  function Take<T>(s: seq<T>, n: nat): seq<T> {
    if |s| <= n then s else s[..n]
  }

  function InTurns(allowed: set<Id>): MessageRow -> bool {
    (m: MessageRow) => m.turnId in allowed
  }

  method FindAssistant(newest: seq<MessageRow>) returns (latest: Option<MessageRow>)
    requires IsSorted(newest, Newest())
    ensures latest.Some? ==> IsLatestAssistant(newest, latest.value)
    ensures latest.None? ==> forall m :: m in newest ==> !m.isAssistant
  {
    for i := 0 to |newest|
      invariant forall j :: 0 <= j < i ==> !newest[j].isAssistant
    {
      if newest[i].isAssistant {
        forall n | n in newest && n.isAssistant ensures NoLater(n.createdAt, n.id, newest[i].createdAt, newest[i].id) {
          var j :| 0 <= j < |newest| && newest[j] == n;
          assert i < j ==> Newest()(newest[i], newest[j]);
        }
        return Some(newest[i]);
      }
    }
    return None;
  }

  function TurnIds(rows: seq<MessageRow>): set<Id> {
    set m | m in rows :: m.turnId
  }

  /** The turns let in: the assistant's, then the most recent ones, until there are enough. */
  method AllowTurns(newest: seq<MessageRow>, first: set<Id>, limit: nat) returns (allowed: set<Id>, ghost seen: nat)
    requires |first| <= 1 <= limit
    ensures |allowed| <= limit && seen <= |newest|
    ensures allowed == first + TurnIds(newest[..seen])
    ensures seen < |newest| ==> |allowed| == limit
  {
    allowed := first;
    var i := 0;
    assert TurnIds(newest[..0]) == {};
    while i < |newest|
      invariant i <= |newest| && |allowed| <= limit
      invariant allowed == first + TurnIds(newest[..i])
    {
      if |allowed| >= limit {
        break;
      }
      var before := allowed;
      allowed := allowed + {newest[i].turnId};
      assert newest[..i + 1] == newest[..i] + [newest[i]];
      assert TurnIds(newest[..i + 1]) == TurnIds(newest[..i]) + {newest[i].turnId};
      i := i + 1;
    }
    seen := i;
  }

  /** A message created after every message of a turn. */
  predicate NewerThanTurn(rows: seq<MessageRow>, n: MessageRow, turnId: Id) {
    forall k :: k in rows && k.turnId == turnId ==> !NoLater(n.createdAt, n.id, k.createdAt, k.id)
  }

  /** The selection keeps what is recent: whatever is newer than a kept turn's messages is kept too. */
  ghost predicate KeepsRecent(rows: seq<MessageRow>, selected: seq<MessageRow>, assistantTurn: set<Id>) {
    forall m, n :: m in selected && m.turnId !in assistantTurn && n in rows && NewerThanTurn(rows, n, m.turnId) ==> n in selected
  }

  /** In a sorted list without repetitions, what is newer comes earlier. */
  lemma NewerIsEarlier(s: seq<MessageRow>, i: nat, j: nat)
    requires IsSorted(s, Newest()) && DistinctMessages(s) && i < |s| && j < |s|
    requires s[j] != s[i] && Newest()(s[j], s[i])
    ensures j < i
  {
  }

  lemma TakeKeepsRecent(s: seq<MessageRow>, n: nat, m: MessageRow, k: MessageRow)
    requires IsSorted(s, Newest()) && DistinctMessages(s)
    requires m in Take(s, n) && k in s && k != m && Newest()(k, m)
    ensures k in Take(s, n)
  {
    var i :| 0 <= i < |Take(s, n)| && Take(s, n)[i] == m;
    var j :| 0 <= j < |s| && s[j] == k;
    NewerIsEarlier(s, i, j);
    assert Take(s, n)[j] == k;
  }

  lemma {:induction false} FilteredDistinct(s: seq<MessageRow>, keep: MessageRow -> bool)
    requires DistinctMessages(s)
    ensures DistinctMessages(Filtered(s, keep)) && |Filtered(s, keep)| <= |s|
  {
    if s != [] {
      var n := |s| - 1;
      FilteredDistinct(s[..n], keep);
      FilteredKept(s[..n], keep);
      forall x | x in Filtered(s[..n], keep) ensures x.id != s[n].id {
        var i :| 0 <= i < n && s[i] == x;
      }
    }
  }

  lemma TakeHolds(s: seq<MessageRow>, n: nat)
    ensures |Take(s, n)| <= n && (DistinctMessages(s) ==> DistinctMessages(Take(s, n)))
    ensures forall m :: m in Take(s, n) ==> m in s
  {
  }

  lemma {:induction false} DistinctIsAboutElements(a: seq<MessageRow>, b: seq<MessageRow>)
    requires multiset(a) == multiset(b) && DistinctMessages(a)
    ensures DistinctMessages(b)
  {
    forall i, j | 0 <= i < j < |b| ensures b[i].id != b[j].id {
      if b[i].id == b[j].id {
        SameElements(a, b);
        assert b[i] in a && b[j] in a;
        var k :| 0 <= k < |a| && a[k] == b[i];
        assert b[i] == b[j];
        TwiceIn(b, i, j);
        OnceIn(a, k);
        assert false;
      }
    }
  }

  lemma TwiceIn(s: seq<MessageRow>, i: nat, j: nat)
    requires i < j < |s| && s[i] == s[j]
    ensures multiset(s)[s[i]] >= 2
  {
    assert s == s[..j] + [s[j]] + s[j + 1..];
    assert s[i] in s[..j];
    assert multiset(s[..j])[s[i]] >= 1;
  }

  lemma OnceIn(s: seq<MessageRow>, k: nat)
    requires k < |s| && DistinctMessages(s)
    ensures multiset(s)[s[k]] == 1
  {
    assert s == s[..k] + [s[k]] + s[k + 1..];
    assert s[k] !in s[..k] && s[k] !in s[k + 1..];
  }

  /** The latest assistant message first, then the newest others. */
  function Chosen(newest: seq<MessageRow>, latest: Option<MessageRow>, messages: nat): seq<MessageRow>
    requires messages >= 1
  {
    if latest.None? then Take(newest, messages)
    else [latest.value] + Take(Filtered(newest, OtherThan(latest.value)), messages - 1)
  }

  lemma ChosenFacts(newest: seq<MessageRow>, latest: Option<MessageRow>, messages: nat)
    requires messages >= 1 && IsSorted(newest, Newest()) && DistinctMessages(newest)
    requires latest.Some? ==> latest.value in newest
    ensures var chosen := Chosen(newest, latest, messages);
      && |chosen| <= messages && DistinctMessages(chosen)
      && (forall m :: m in chosen ==> m in newest)
  {
    TakeHolds(newest, messages);
    if latest.Some? {
      var others := Filtered(newest, OtherThan(latest.value));
      FilteredDistinct(newest, OtherThan(latest.value));
      FilteredKept(newest, OtherThan(latest.value));
      TakeHolds(others, messages - 1);
      PrependDistinct(latest.value, Take(others, messages - 1));
    }
  }

  lemma PrependDistinct(m: MessageRow, s: seq<MessageRow>)
    requires DistinctMessages(s) && forall n :: n in s ==> n.id != m.id
    ensures DistinctMessages([m] + s)
  {
  }

  lemma ChosenKeepsRecent(newest: seq<MessageRow>, latest: Option<MessageRow>, messages: nat, m: MessageRow, n: MessageRow)
    requires messages >= 1 && IsSorted(newest, Newest()) && DistinctMessages(newest)
    requires latest.Some? ==> latest.value in newest && m != latest.value
    requires m in Chosen(newest, latest, messages) && n in newest && n != m && Newest()(n, m)
    ensures n in Chosen(newest, latest, messages)
  {
    if latest.None? {
      TakeKeepsRecent(newest, messages, m, n);
    } else if n != latest.value {
      var others := Filtered(newest, OtherThan(latest.value));
      FilteredSorted(newest, OtherThan(latest.value), Newest());
      FilteredDistinct(newest, OtherThan(latest.value));
      FilteredKept(newest, OtherThan(latest.value));
      SameIdSameMessage(newest, n, latest.value);
      TakeKeepsRecent(others, messages - 1, m, n);
    }
  }

  lemma SameIdSameMessage(rows: seq<MessageRow>, a: MessageRow, b: MessageRow)
    requires DistinctMessages(rows) && a in rows && b in rows
    ensures a.id == b.id ==> a == b
  {
  }

  /** Turns let in because they are recent keep every newer message's turn in. */
  lemma AllowedIsRecent(newest: seq<MessageRow>, seen: nat, turnId: Id, n: MessageRow)
    requires IsSorted(newest, Newest()) && DistinctMessages(newest) && seen <= |newest|
    requires turnId in TurnIds(newest[..seen]) && n in newest && NewerThanTurn(newest, n, turnId)
    ensures n.turnId in TurnIds(newest[..seen])
  {
    var k :| k in newest[..seen] && k.turnId == turnId;
    var i :| 0 <= i < seen && newest[..seen][i] == k;
    var j :| 0 <= j < |newest| && newest[j] == n;
    NewerIsEarlier(newest, i, j);
    assert newest[..seen][j] == n;
  }

  predicate NewestFirst(messages: seq<MessageRow>) {
    forall i, j :: 0 <= i < j < |messages| ==>
      NoLater(messages[j].createdAt, messages[j].id, messages[i].createdAt, messages[i].id)
  }

  lemma SortedIsNewestFirst(messages: seq<MessageRow>)
    requires IsSorted(messages, Newest())
    ensures NewestFirst(messages)
  {
    forall i, j | 0 <= i < j < |messages|
      ensures NoLater(messages[j].createdAt, messages[j].id, messages[i].createdAt, messages[i].id)
    {
      assert Newest()(messages[i], messages[j]);
    }
  }

  /** As many messages as there may be: the latest of the assistant, and whatever else is newest. */
  ghost predicate IsChosen(rows: seq<MessageRow>, chosen: seq<MessageRow>, latest: Option<MessageRow>, messages: nat) {
    && DistinctMessages(chosen) && |chosen| == (if |rows| <= messages then |rows| else messages)
    && (forall m :: m in chosen ==> m in rows)
    && (latest.Some? ==> latest.value in chosen)
    && (forall m, n :: m in chosen && latest != Some(m) && n in rows && !NoLater(n.createdAt, n.id, m.createdAt, m.id) ==> n in chosen)
  }

  lemma {:induction false} OneOther(s: seq<MessageRow>, m: MessageRow)
    requires DistinctMessages(s)
    ensures |Filtered(s, OtherThan(m))| == |s| - (if exists n :: n in s && n.id == m.id then 1 else 0)
  {
    if s != [] {
      var k := |s| - 1;
      assert s == s[..k] + [s[k]];
      OneOther(s[..k], m);
      if s[k].id == m.id {
        assert forall n :: n in s[..k] ==> n.id != m.id;
      }
    }
  }

  lemma ChosenIsChosen(rows: seq<MessageRow>, newest: seq<MessageRow>, latest: Option<MessageRow>, messages: nat)
    requires messages >= 1 && IsSorted(newest, Newest()) && DistinctMessages(newest)
    requires multiset(rows) == multiset(newest)
    requires latest.Some? ==> latest.value in newest
    ensures IsChosen(rows, Chosen(newest, latest, messages), latest, messages)
  {
    var chosen := Chosen(newest, latest, messages);
    SameElements(rows, newest);
    assert |rows| == |multiset(rows)| == |newest|;
    ChosenFacts(newest, latest, messages);
    if latest.Some? {
      OneOther(newest, latest.value);
    }
    forall m, n | m in chosen && latest != Some(m) && n in rows && !NoLater(n.createdAt, n.id, m.createdAt, m.id) ensures n in chosen {
      ChosenKeepsRecent(newest, latest, messages, m, n);
    }
  }

  /** The rule in full: the chosen messages in the turns let in, of which there are enough or all. */
  ghost predicate IsSelection(rows: seq<MessageRow>, selected: seq<MessageRow>, latest: Option<MessageRow>, messages: nat, turns: nat,
                              chosen: seq<MessageRow>, newest: seq<MessageRow>, allowed: set<Id>, seen: nat) {
    && IsChosen(rows, chosen, latest, messages) && selected == Filtered(chosen, InTurns(allowed))
    && multiset(newest) == multiset(rows) && NewestFirst(newest) && seen <= |newest|
    && allowed == TurnOf(latest) + TurnIds(newest[..seen])
    && |allowed| <= turns
    && (seen < |newest| ==> |allowed| == turns)
  }

  function TurnOf(latest: Option<MessageRow>): set<Id> {
    if latest.Some? then {latest.value.turnId} else {}
  }

  method SelectMessages(rows: seq<MessageRow>, messages: nat, turns: nat)
    returns (selected: seq<MessageRow>, ghost latest: Option<MessageRow>)
    requires messages >= 1 && turns >= 1 && DistinctMessages(rows)
    ensures |selected| <= messages
    ensures |TurnIds(selected)| <= turns
    ensures forall m :: m in selected ==> m in rows
    ensures forall m :: IsLatestAssistant(rows, m) <==> latest == Some(m)
    ensures latest.Some? ==> latest.value in selected
    ensures KeepsRecent(rows, selected, TurnOf(latest))
    ensures exists chosen, newest, allowed, seen :: IsSelection(rows, selected, latest, messages, turns, chosen, newest, allowed, seen)
    ensures DistinctMessages(selected)
  {
    var newest := Sort(rows, Newest());
    NewestIsOrder();
    SortSorts(rows, Newest());
    SameElements(rows, newest);
    DistinctIsAboutElements(rows, newest);
    var found := FindAssistant(newest);
    latest := found;
    var chosen := Chosen(newest, found, messages);
    ChosenFacts(newest, found, messages);
    ghost var seen;
    var allowed;
    allowed, seen := AllowTurns(newest, TurnOf(found), turns);
    selected := Filtered(chosen, InTurns(allowed));
    FilteredKept(chosen, InTurns(allowed));
    FilteredDistinct(chosen, InTurns(allowed));
    SubsetIsSmaller(TurnIds(selected), allowed);
    ChosenIsChosen(rows, newest, latest, messages);
    SortedIsNewestFirst(newest);
    assert IsSelection(rows, selected, latest, messages, turns, chosen, newest, allowed, seen);
    SelectionKeepsRecent(rows, newest, latest, messages, allowed, seen);
    LatestIsUnique(rows, newest, latest);
  }

  lemma SelectionKeepsRecent(rows: seq<MessageRow>, newest: seq<MessageRow>, latest: Option<MessageRow>, messages: nat, allowed: set<Id>, seen: nat)
    requires messages >= 1 && IsSorted(newest, Newest()) && DistinctMessages(newest) && seen <= |newest|
    requires forall m :: m in rows <==> m in newest
    requires latest.Some? ==> latest.value in newest
    requires allowed == TurnOf(latest) + TurnIds(newest[..seen])
    ensures KeepsRecent(rows, Filtered(Chosen(newest, latest, messages), InTurns(allowed)), TurnOf(latest))
  {
    var chosen := Chosen(newest, latest, messages);
    var selected := Filtered(chosen, InTurns(allowed));
    ChosenFacts(newest, latest, messages);
    FilteredKept(chosen, InTurns(allowed));
    forall m, n | m in selected && m.turnId !in TurnOf(latest) && n in rows && NewerThanTurn(rows, n, m.turnId) ensures n in selected {
      assert NewerThanTurn(newest, n, m.turnId);
      KeptWithNewer(newest, latest, messages, allowed, seen, m, n);
    }
  }

  lemma KeptWithNewer(newest: seq<MessageRow>, latest: Option<MessageRow>, messages: nat, allowed: set<Id>, seen: nat, m: MessageRow, n: MessageRow)
    requires messages >= 1 && IsSorted(newest, Newest()) && DistinctMessages(newest) && seen <= |newest|
    requires latest.Some? ==> latest.value in newest
    requires allowed == TurnOf(latest) + TurnIds(newest[..seen])
    requires m in Chosen(newest, latest, messages) && m in newest && m.turnId in allowed && m.turnId !in TurnOf(latest)
    requires n in newest && NewerThanTurn(newest, n, m.turnId)
    ensures n in Chosen(newest, latest, messages) && n.turnId in allowed
  {
    AllowedIsRecent(newest, seen, m.turnId, n);
    ChosenKeepsRecent(newest, latest, messages, m, n);
  }

  lemma LatestIsUnique(rows: seq<MessageRow>, newest: seq<MessageRow>, latest: Option<MessageRow>)
    requires DistinctMessages(rows) && forall m :: m in rows <==> m in newest
    requires latest.Some? ==> IsLatestAssistant(newest, latest.value)
    requires latest.None? ==> forall m :: m in newest ==> !m.isAssistant
    ensures forall m :: IsLatestAssistant(rows, m) <==> latest == Some(m)
  {
    forall m | IsLatestAssistant(rows, m) ensures latest == Some(m) {
      assert m in newest;
      SameIdSameMessage(rows, m, latest.value);
    }
  }

  lemma SubsetIsSmaller(a: set<Id>, b: set<Id>)
    requires a <= b
    ensures |a| <= |b|
  {
    assert b == a + (b - a);
  }

  // ---------------------------------------------------------------- turns and tools

  function Oldest(): (MessageRow, MessageRow) -> bool {
    (a: MessageRow, b: MessageRow) => a.createdAt < b.createdAt || (a.createdAt == b.createdAt && a.id <= b.id)
  }

  function InTurn(turnId: Id): MessageRow -> bool {
    (m: MessageRow) => m.turnId == turnId
  }

  function EarlierTurn(): (Turn, Turn) -> bool {
    (a: Turn, b: Turn) => a.time < b.time || (a.time == b.time && a.id <= b.id)
  }

  predicate MessagesInOrder(messages: seq<MessageRow>) {
    forall i, j :: 0 <= i < j < |messages| ==>
      NoLater(messages[i].createdAt, messages[i].id, messages[j].createdAt, messages[j].id)
  }

  lemma MessagesSortedInOrder(messages: seq<MessageRow>)
    requires IsSorted(messages, Oldest())
    ensures MessagesInOrder(messages)
  {
    forall i, j | 0 <= i < j < |messages|
      ensures NoLater(messages[i].createdAt, messages[i].id, messages[j].createdAt, messages[j].id)
    {
      assert Oldest()(messages[i], messages[j]);
    }
  }

  /** A turn as the context shows it: all its selected messages, oldest first. */
  predicate IsTurnOf(t: Turn, messages: seq<MessageRow>) {
    && t.messages != []
    && multiset(t.messages) == multiset(Filtered(messages, InTurn(t.id)))
    && MessagesInOrder(t.messages)
    && t.time == t.messages[0].turnCreatedAt
  }

  /** A turn is protected when it holds the newest assistant message. */
  predicate ProtectsLatest(t: Turn, messages: seq<MessageRow>) {
    t.isProtected <==> exists m :: m in t.messages && IsLatestAssistant(messages, m)
  }

  predicate Grouped(groups: map<Id, seq<MessageRow>>, messages: seq<MessageRow>) {
    && groups.Keys == TurnIds(messages)
    && (forall k :: k in groups ==> groups[k] == Filtered(messages, InTurn(k)))
  }

  method GroupByTurn(messages: seq<MessageRow>) returns (groups: map<Id, seq<MessageRow>>)
    ensures Grouped(groups, messages)
  {
    groups := map[];
    for i := 0 to |messages|
      invariant Grouped(groups, messages[..i])
    {
      var m := messages[i];
      assert messages[..i + 1][..i] == messages[..i];
      assert messages[..i + 1] == messages[..i] + [m];
      assert TurnIds(messages[..i + 1]) == TurnIds(messages[..i]) + {m.turnId};
      if m.turnId !in groups {
        NoneInTurn(messages[..i], m.turnId);
      }
      groups := groups[m.turnId := (if m.turnId in groups then groups[m.turnId] else []) + [m]];
    }
    assert messages[..|messages|] == messages;
  }

  lemma NoneInTurn(messages: seq<MessageRow>, turnId: Id)
    requires turnId !in TurnIds(messages)
    ensures Filtered(messages, InTurn(turnId)) == []
  {
    FilteredKept(messages, InTurn(turnId));
    HasSomeUnlessEmpty(Filtered(messages, InTurn(turnId)));
  }

  lemma HasSomeUnlessEmpty(s: seq<MessageRow>)
    ensures s != [] ==> exists m :: m in s
  {
    if s != [] {
      assert s[0] in s;
    }
  }

  ghost predicate LatestIs(messages: seq<MessageRow>, latest: Option<MessageRow>) {
    forall m :: IsLatestAssistant(messages, m) <==> latest == Some(m)
  }

  method OneTurn(messages: seq<MessageRow>, k: Id, rows: seq<MessageRow>, latest: Option<MessageRow>) returns (t: Turn)
    requires k in TurnIds(messages) && rows == Filtered(messages, InTurn(k)) && DistinctMessages(messages)
    requires LatestIs(messages, latest)
    ensures t.id == k && IsTurnOf(t, messages) && ProtectsLatest(t, messages)
  {
    var ordered := Sort(rows, Oldest());
    SortSorts(rows, Oldest());
    MessagesSortedInOrder(ordered);
    SameElements(rows, ordered);
    FilteredKept(messages, InTurn(k));
    ghost var m :| m in messages && m.turnId == k;
    assert m in rows;
    t := Turn(k, ordered[0].turnCreatedAt, latest.Some? && latest.value in ordered, ordered);
  }

  lemma EarlierTurnIsOrder()
    ensures IsOrder(EarlierTurn()) && IsOrder(Oldest())
  {
  }

  function IdsOf(turns: seq<Turn>): set<Id> {
    set t | t in turns :: t.id
  }

  ghost predicate AreTurns(turns: seq<Turn>, messages: seq<MessageRow>, ids: set<Id>) {
    && (forall t :: t in turns ==> IsTurnOf(t, messages) && ProtectsLatest(t, messages))
    && IdsOf(turns) == ids
  }

  method WithTurn(turns: seq<Turn>, messages: seq<MessageRow>, groups: map<Id, seq<MessageRow>>, k: Id,
                  latest: Option<MessageRow>, ghost done: set<Id>) returns (more: seq<Turn>)
    requires DistinctMessages(messages) && Grouped(groups, messages) && LatestIs(messages, latest)
    requires k in groups && AreTurns(turns, messages, done)
    ensures AreTurns(more, messages, done + {k})
  {
    var t := OneTurn(messages, k, groups[k], latest);
    AddTurn(turns, t, messages, done);
    more := turns + [t];
  }

  /** The groups in the order in which their first messages come. */
  method BuildTurns(messages: seq<MessageRow>, groups: map<Id, seq<MessageRow>>, latest: Option<MessageRow>) returns (turns: seq<Turn>)
    requires DistinctMessages(messages) && Grouped(groups, messages)
    requires LatestIs(messages, latest)
    ensures AreTurns(turns, messages, TurnIds(messages))
  {
    turns := [];
    var seen: set<Id> := {};
    assert TurnIds(messages[..0]) == {};
    for i := 0 to |messages|
      invariant seen == TurnIds(messages[..i])
      invariant AreTurns(turns, messages, seen)
    {
      var k := messages[i].turnId;
      TurnIdsStep(messages, i);
      if k !in seen {
        turns := WithTurn(turns, messages, groups, k, latest, seen);
        seen := seen + {k};
      }
    }
    assert messages[..|messages|] == messages;
  }

  lemma TurnIdsStep(messages: seq<MessageRow>, i: nat)
    requires i < |messages|
    ensures TurnIds(messages[..i + 1]) == TurnIds(messages[..i]) + {messages[i].turnId}
    ensures messages[i].turnId in TurnIds(messages)
  {
    assert messages[..i + 1] == messages[..i] + [messages[i]];
  }

  lemma AddTurn(turns: seq<Turn>, t: Turn, messages: seq<MessageRow>, ids: set<Id>)
    requires AreTurns(turns, messages, ids) && IsTurnOf(t, messages) && ProtectsLatest(t, messages)
    ensures AreTurns(turns + [t], messages, ids + {t.id})
  {
    assert IdsOf(turns + [t]) == IdsOf(turns) + {t.id};
  }

  lemma ReorderTurns(a: seq<Turn>, b: seq<Turn>, messages: seq<MessageRow>, ids: set<Id>)
    requires AreTurns(a, messages, ids) && multiset(a) == multiset(b)
    ensures AreTurns(b, messages, ids)
  {
    SameElements(a, b);
    assert IdsOf(a) == IdsOf(b);
  }

  lemma TurnsSortedInOrder(turns: seq<Turn>)
    requires IsSorted(turns, EarlierTurn())
    ensures TurnsInOrder(turns)
  {
    forall i, j | 0 <= i < j < |turns| ensures NoLater(turns[i].time, turns[i].id, turns[j].time, turns[j].id) {
      assert EarlierTurn()(turns[i], turns[j]);
    }
  }

  /** One turn for every turn id among the messages, oldest turn first. */
  method MapTurns(messages: seq<MessageRow>) returns (turns: seq<Turn>)
    requires DistinctMessages(messages)
    ensures TurnsInOrder(turns) && AreTurns(turns, messages, TurnIds(messages))
  {
    var newest := Sort(messages, Newest());
    NewestIsOrder();
    SortSorts(messages, Newest());
    SameElements(messages, newest);
    var latest := FindAssistant(newest);
    LatestIsUnique(messages, newest, latest);
    assert LatestIs(messages, latest);
    var groups := GroupByTurn(messages);
    var unsorted := BuildTurns(messages, groups, latest);
    turns := Sort(unsorted, EarlierTurn());
    EarlierTurnIsOrder();
    SortSorts(unsorted, EarlierTurn());
    TurnsSortedInOrder(turns);
    ReorderTurns(unsorted, turns, messages, TurnIds(messages));
  }

  function NewestTool(): (Tool, Tool) -> bool {
    (a: Tool, b: Tool) => a.time > b.time || (a.time == b.time && a.id >= b.id)
  }

  function OldestTool(): (Tool, Tool) -> bool {
    (a: Tool, b: Tool) => a.time < b.time || (a.time == b.time && a.id <= b.id)
  }

  /** The newest tool results, at most `limit` of them, oldest first. */
  function MapTools(rows: seq<Tool>, limit: nat): seq<Tool> {
    Sort(Take(Sort(rows, NewestTool()), limit), OldestTool())
  }

  /** No tool of `rest` is later than one of `kept`. */
  predicate NoneLater(rest: seq<Tool>, kept: seq<Tool>) {
    forall t, k :: t in rest && t !in kept && k in kept ==> NoLater(t.time, t.id, k.time, k.id)
  }

  /** None is left out for an older one, and they come oldest first. */
  lemma MapToolsFacts(rows: seq<Tool>, limit: nat)
    ensures |MapTools(rows, limit)| == if |rows| <= limit then |rows| else limit
    ensures ToolsInOrder(MapTools(rows, limit))
    ensures multiset(MapTools(rows, limit)) <= multiset(rows)
    ensures NoneLater(rows, MapTools(rows, limit))
  {
    ToolOrders();
    var newest := Sort(rows, NewestTool());
    var kept := Take(newest, limit);
    SortSorts(rows, NewestTool());
    SortSorts(kept, OldestTool());
    ToolsSortedInOrder(MapTools(rows, limit));
    assert newest == kept + newest[|kept|..];
    TakenAreNewest(newest, limit);
    SameElements(rows, newest);
    SameElements(kept, MapTools(rows, limit));
    SameToolsNoneLater(newest, rows, kept, MapTools(rows, limit));
  }

  lemma SameToolsNoneLater(a: seq<Tool>, a': seq<Tool>, b: seq<Tool>, b': seq<Tool>)
    requires NoneLater(a, b)
    requires forall t :: t in a <==> t in a'
    requires forall t :: t in b <==> t in b'
    ensures NoneLater(a', b')
  {
  }

  lemma TakenAreNewest(newest: seq<Tool>, limit: nat)
    requires IsSorted(newest, NewestTool())
    ensures NoneLater(newest, Take(newest, limit))
  {
    var kept := Take(newest, limit);
    forall t, k | t in newest && t !in kept && k in kept ensures NoLater(t.time, t.id, k.time, k.id) {
      var i :| 0 <= i < |newest| && newest[i] == t;
      var j :| 0 <= j < |kept| && kept[j] == k;
      assert newest[j] == k && j < i;
      assert NewestTool()(newest[j], newest[i]);
    }
  }

  lemma ToolOrders()
    ensures IsOrder(NewestTool()) && IsOrder(OldestTool())
  {
  }

  lemma ToolsSortedInOrder(tools: seq<Tool>)
    requires IsSorted(tools, OldestTool())
    ensures ToolsInOrder(tools)
  {
    forall i, j | 0 <= i < j < |tools| ensures NoLater(tools[i].time, tools[i].id, tools[j].time, tools[j].id) {
      assert OldestTool()(tools[i], tools[j]);
    }
  }

  // ---------------------------------------------------------------- the whole assembly

  lemma {:induction false} ShieldedHolds(turns: seq<Turn>)
    ensures forall t :: t in Shielded(turns) <==> t in turns && t.isProtected
  {
    if turns != [] {
      ShieldedHolds(turns[1..]);
      assert turns == [turns[0]] + turns[1..];
    }
  }

  lemma {:induction false} UnprotectedInOrder(turns: seq<Turn>)
    requires TurnsInOrder(turns)
    ensures TurnsInOrder(Unprotected(turns))
    ensures forall t :: t in Unprotected(turns) ==> t in turns
  {
    if turns != [] {
      assert turns == [turns[0]] + turns[1..];
      UnprotectedInOrder(turns[1..]);
      forall t | t in turns[1..] ensures NoLater(turns[0].time, turns[0].id, t.time, t.id) {
        var i :| 0 <= i < |turns[1..]| && turns[1..][i] == t;
        assert turns[i + 1] == t;
      }
    }
  }

  /** The context before anything is dropped. */
  ghost predicate IsFullContext(full: Kept, rows: seq<MessageRow>, toolRows: seq<Tool>, messages: nat, turnLimit: nat, toolLimit: nat)
  {
    && (exists selected, latest, chosen, newest, allowed, seen ::
          && IsSelection(rows, selected, latest, messages, turnLimit, chosen, newest, allowed, seen)
          && TurnsInOrder(full.turns) && AreTurns(full.turns, selected, TurnIds(selected)))
    && full.tools == MapTools(toolRows, toolLimit)
    && OldestFirst(Evictable(full.turns, full.tools))
  }

  /**
   * Assembling a context for any measure of its size: if it succeeds, it fits the limit, holds the
   * newest assistant message of the conversation, and lacks no more of the oldest items than it must.
   */
  method AssembleContext(rows: seq<MessageRow>, toolRows: seq<Tool>, messages: nat, turnLimit: nat, toolLimit: nat,
                         size: Kept -> nat, limit: nat)
    returns (result: Option<Kept>)
    requires messages >= 1 && turnLimit >= 1 && DistinctMessages(rows)
    ensures exists full :: IsFullContext(full, rows, toolRows, messages, turnLimit, toolLimit) && IsTrimmed(full, result, size, limit)
    ensures result.Some? ==> size(result.value) <= limit
    ensures result.Some? ==> forall m :: IsLatestAssistant(rows, m) ==> HoldsProtected(result.value.turns, m)
  {
    var selected;
    ghost var latest;
    selected, latest := SelectMessages(rows, messages, turnLimit);
    var turns := MapTurns(selected);
    var tools := MapTools(toolRows, toolLimit);
    FullContextInOrder(turns, toolRows, toolLimit);
    ghost var full := Kept(turns, tools);
    assert IsFullContext(full, rows, toolRows, messages, turnLimit, toolLimit);
    result := Trim(Kept(turns, tools), size, limit);
    if result.Some? {
      TrimmingKeepsLatest(rows, selected, full, result.value, size, limit);
    }
  }

  lemma FullContextInOrder(turns: seq<Turn>, toolRows: seq<Tool>, toolLimit: nat)
    requires TurnsInOrder(turns)
    ensures OldestFirst(Evictable(turns, MapTools(toolRows, toolLimit)))
  {
    var tools := MapTools(toolRows, toolLimit);
    MapToolsFacts(toolRows, toolLimit);
    UnprotectedInOrder(turns);
    MergeIsOldestFirst(Unprotected(turns), tools);
  }

  lemma TrimmingKeepsLatest(rows: seq<MessageRow>, selected: seq<MessageRow>, full: Kept, kept: Kept, size: Kept -> nat, limit: nat)
    requires forall m :: m in selected ==> m in rows
    requires forall m :: IsLatestAssistant(rows, m) ==> m in selected
    requires AreTurns(full.turns, selected, TurnIds(selected)) && FitsFirst(full, kept, size, limit)
    ensures size(kept) <= limit
    ensures forall m :: IsLatestAssistant(rows, m) ==> HoldsProtected(kept.turns, m)
  {
    var n: nat :| FitsAfter(full, kept, size, limit, n);
    DroppedIsSuffix(full, n);
    forall m | IsLatestAssistant(rows, m) ensures HoldsProtected(kept.turns, m) {
      LatestStays(rows, selected, full.turns, kept.turns, m);
    }
  }

  ghost predicate IsTrimmed(full: Kept, result: Option<Kept>, size: Kept -> nat, limit: nat) {
    match result
    case None => NeverFits(full, size, limit)
    case Some(kept) => FitsFirst(full, kept, size, limit)
  }

  predicate HoldsProtected(turns: seq<Turn>, m: MessageRow) {
    exists t :: t in turns && t.isProtected && m in t.messages
  }

  lemma LatestStays(rows: seq<MessageRow>, selected: seq<MessageRow>, turns: seq<Turn>, kept: seq<Turn>, m: MessageRow)
    requires IsLatestAssistant(rows, m) && m in selected && forall n :: n in selected ==> n in rows
    requires AreTurns(turns, selected, TurnIds(selected))
    requires Shielded(kept) == Shielded(turns)
    ensures HoldsProtected(kept, m)
  {
    assert m.turnId in TurnIds(selected);
    var t :| t in turns && t.id == m.turnId;
    FilteredKept(selected, InTurn(t.id));
    SameElements(t.messages, Filtered(selected, InTurn(t.id)));
    assert IsLatestAssistant(selected, m);
    ShieldedHolds(turns);
    ShieldedHolds(kept);
    assert t in Shielded(turns);
  }
}
