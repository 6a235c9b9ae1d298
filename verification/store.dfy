/** The `food_logs` table seen as an abstract sequence of rows, with
    the transaction of `save_meal_to_db` and the "today" query of
    `get_daily_summary`. Connections, SQL text and wall-clock time are
    not modelled: the day a row was created is a number, and the day
    that starts "today" is given by the caller. */
module Store {
  import opened Nutrition

  /** One persisted row: the sender, the item's columns, and the day of
      its `created_at` timestamp. */
  datatype LoggedRow = LoggedRow(sender: string, item: Item, day: int)

  /** Where the database raises during a save, if anywhere. `InsertFails(i)`
      is the INSERT of the item at index `i`; a meal with no such item
      never reaches it. */
  datatype Fault = NoFault | ConnectFails | InsertFails(index: nat) | CommitFails

  /** Rows written for a meal: one per item, in item order. */
  function Stamp(sender: string, items: seq<Item>, day: int): (rows: seq<LoggedRow>)
    ensures |rows| == |items|
  {
    seq(|items|, k requires 0 <= k < |items| => LoggedRow(sender, items[k], day))
  }

  /** The save reaches its commit and the commit succeeds. */
  predicate Commits(itemCount: nat, fault: Fault)
    ensures fault == NoFault ==> Commits(itemCount, fault)
    ensures fault == ConnectFails || fault == CommitFails ==> !Commits(itemCount, fault)
    ensures fault.InsertFails? ==> (Commits(itemCount, fault) <==> fault.index >= itemCount)
  {
    match fault
    case NoFault => true
    case ConnectFails => false
    case InsertFails(i) => i >= itemCount
    case CommitFails => false
  }

  /** The INSERT loop inside the open transaction: every item is staged
      in order unless an INSERT raises, in which case nothing at all is
      kept (the uncommitted transaction is discarded). */
  method StageInserts(sender: string, items: seq<Item>, fault: Fault, day: int)
    returns (staged: seq<LoggedRow>, raised: bool)
    ensures raised <==> fault.InsertFails? && fault.index < |items|
    ensures !raised ==> staged == Stamp(sender, items, day)
    ensures raised ==> staged == []
  {
    staged, raised := [], false;
    var i := 0;
    while i < |items|
      invariant 0 <= i <= |items|
      invariant |staged| == i
      invariant forall k :: 0 <= k < i ==> staged[k] == LoggedRow(sender, items[k], day)
      invariant !(fault.InsertFails? && fault.index < i)
    {
      if fault == InsertFails(i) {
        return [], true;
      }
      staged := staged + [LoggedRow(sender, items[i], day)];
      i := i + 1;
    }
  }

  /** The rows `get_daily_summary` fetches: the sender's rows created on
      or after the start of `today`, in store order. */
  function Today(log: seq<LoggedRow>, sender: string, today: int): (rows: seq<Row>)
    ensures |rows| <= |log|
    ensures (forall k :: 0 <= k < |log| ==> log[k].sender != sender || log[k].day < today) ==> rows == []
    ensures forall x :: x in rows ==>
      exists k :: 0 <= k < |log| && log[k].item == x && log[k].sender == sender && log[k].day >= today
    ensures forall k :: 0 <= k < |log| && log[k].sender == sender && log[k].day >= today ==> log[k].item in rows
  {
    if log == [] then []
    else
      assert forall k :: 1 <= k < |log| ==> log[k] == log[1..][k - 1];
      (if log[0].sender == sender && log[0].day >= today then [log[0].item] else [])
      + Today(log[1..], sender, today)
  }

  /** The query distributes over rows appended to the log. */
  lemma {:induction false} TodayAppend(a: seq<LoggedRow>, b: seq<LoggedRow>, sender: string, today: int)
    ensures Today(a + b, sender, today) == Today(a, sender, today) + Today(b, sender, today)
  {
    if a == [] {
      assert a + b == b;
    } else {
      assert (a + b)[0] == a[0];
      assert (a + b)[1..] == a[1..] + b;
      TodayAppend(a[1..], b, sender, today);
    }
  }

  /** A meal just saved today is returned in full, in order, by the
      sender's "today" query. */
  lemma {:induction false} TodayOfStamp(sender: string, items: seq<Item>, day: int)
    ensures Today(Stamp(sender, items, day), sender, day) == items
  {
    if items != [] {
      var rows := Stamp(sender, items, day);
      assert rows[1..] == Stamp(sender, items[1..], day);
      TodayOfStamp(sender, items[1..], day);
      assert items == [items[0]] + items[1..];
    }
  }

  /** Another sender's save never shows up in this sender's summary. */
  lemma {:induction false} TodayOfOtherSender(sender: string, other: string, items: seq<Item>, day: int, today: int)
    requires other != sender
    ensures Today(Stamp(other, items, day), sender, today) == []
  {
    if items != [] {
      var rows := Stamp(other, items, day);
      assert rows[1..] == Stamp(other, items[1..], day);
      TodayOfOtherSender(sender, other, items[1..], day, today);
    }
  }
}
