/** The static submitters of jobs and of external events: a sorted list is sent in batches, each when its
    time has come. */
module Batching {

  /** A job or an external event. */
  datatype Item = Item(date: real, what: string)

  datatype Batch = Batch(items: seq<Item>, sentAt: real)

  ghost predicate InDateOrder(items: seq<Item>) {
    forall i, k :: 0 <= i < k < |items| ==> items[i].date <= items[k].date
  }

  ghost function Concatenated(batches: seq<Batch>): seq<Item> {
    if batches == [] then [] else Concatenated(batches[..|batches| - 1]) + batches[|batches| - 1].items
  }

  /** The batch is not empty, and nothing in it is sent before its date. */
  ghost predicate Due(b: Batch) {
    b.items != [] && forall i :: 0 <= i < |b.items| ==> b.items[i].date <= b.sentAt
  }

  ghost predicate Proper(batches: seq<Batch>) {
    && (forall b :: 0 <= b < |batches| ==> Due(batches[b]))
    && forall b, c :: 0 <= b < c < |batches| ==> batches[b].sentAt <= batches[c].sentAt
  }

  /** All items of the batch have its date. */
  ghost predicate OneDate(b: Batch) {
    forall i :: 0 <= i < |b.items| ==> b.items[i].date == b.sentAt
  }

  lemma ConcatenatedMore(batches: seq<Batch>, b: Batch)
    ensures Concatenated(batches + [b]) == Concatenated(batches) + b.items
  {
    assert (batches + [b])[..|batches|] == batches;
  }

  /** The time the n-th send takes. */
  type Delays = nat -> real

  ghost predicate Instantaneous(delay: Delays) {
    forall n :: delay(n) == 0.0
  }

  class Submitter {
    var clock: real
    var batches: seq<Batch>

    constructor (clock: real)
      ensures this.clock == clock && batches == []
    {
      this.clock, batches := clock, [];
    }

    /** submit_jobs_to_server, send_events_to_server */
    method SendToServer(items: seq<Item>, delay: Delays)
      requires delay(|batches|) >= 0.0
      modifies this
      ensures if items == [] then batches == old(batches) && clock == old(clock)
              else batches == old(batches) + [Batch(items, old(clock))] && clock == old(clock) + delay(|old(batches)|)
    {
      if items != [] {
        var took := delay(|batches|);
        batches := batches + [Batch(items, clock)];
        clock := clock + took;
      }
    }

    /** The next item is in the future: what waits is sent, then the submitter sleeps. */
    method SendAndSleep(items: seq<Item>, i: nat, toSend: seq<Item>, currentDate: real, delay: Delays,
                        ghost start: real)
      requires i < |items| && Sending(items[..i], batches, toSend, currentDate, clock) && items[i].date > currentDate
      requires delay(|batches|) >= 0.0
      modifies this
      ensures Sending(items[..i + 1], batches, [items[i]], clock, clock)
      ensures old(SendingSingly(batches, toSend, currentDate, clock, start)) && delay(|old(batches)|) == 0.0
              ==> SendingSingly(batches, [items[i]], clock, clock, start)
      ensures clock == old(clock) + (if toSend == [] then 0.0 else delay(|old(batches)|))
                       + (items[i].date - currentDate)
      ensures old(Timed(batches, start, delay) && Gathering(batches, toSend, clock, start, delay))
              && currentDate == old(clock)
              ==> Timed(batches, start, delay) && Gathering(batches, [items[i]], clock, start, delay)
    {
      hide Sending, SendingSingly, SingleDates, Proper, Concatenated, Timed, Gathering, InTime, Due, OneDate,
           InDateOrder, Instantaneous;
      TimedMore(batches, toSend, items[i], currentDate, clock, start, delay);
      ghost var instantly := SendingSingly(batches, toSend, currentDate, clock, start) && delay(|batches|) == 0.0;
      Sent(items[..i], batches, toSend, currentDate, clock, if toSend == [] then clock else clock + delay(|batches|));
      if instantly { SentSingly(batches, toSend, currentDate, clock, start); }
      SendToServer(toSend, delay);
      Slept(items, i, batches, currentDate, clock);
      if instantly { SleptSingly(items[i], batches, currentDate, clock, start); }
      clock := clock + (items[i].date - currentDate);
    }

    /** One turn of the loop. */
    method TakeItem(items: seq<Item>, i: nat, toSend: seq<Item>, currentDate: real, delay: Delays,
                    ghost start: real, ghost instantly: bool)
      returns (toSend': seq<Item>, currentDate': real)
      requires i < |items| && InDateOrder(items) && currentDate == clock && forall n :: delay(n) >= 0.0
      requires Sending(items[..i], batches, toSend, currentDate, clock)
      requires Timed(batches, start, delay) && Gathering(batches, toSend, clock, start, delay)
      requires instantly ==> SendingSingly(batches, toSend, currentDate, clock, start) && forall n :: delay(n) == 0.0
      modifies this
      ensures Sending(items[..i + 1], batches, toSend', currentDate', clock) && currentDate' == clock
      ensures instantly ==> SendingSingly(batches, toSend', currentDate', clock, start)
      ensures Timed(batches, start, delay) && Gathering(batches, toSend', clock, start, delay)
    {
      hide *;
      if items[i].date > currentDate {
        SendAndSleep(items, i, toSend, currentDate, delay, start);
        currentDate' := clock;
        toSend' := [items[i]];
      } else {
        Appended(items, i, batches, toSend, currentDate, clock);
        GatheringMore(batches, toSend, items[i], clock, start, delay);
        if instantly { AppendedSingly(items, i, batches, toSend, currentDate, clock, start); }
        currentDate' := currentDate;
        toSend' := toSend + [items[i]];
      }
    }

    /** The loop of static_job_submitter_process and static_event_submitter_process. */
    method SubmitAll(items: seq<Item>, delay: Delays)
      requires batches == [] && InDateOrder(items) && forall n :: delay(n) >= 0.0
      modifies this
      ensures Concatenated(batches) == items && Proper(batches)
      ensures Instantaneous(delay) ==> SingleDates(batches, old(clock))
      ensures Timed(batches, old(clock), delay)
    {
      Nothing(clock);
      NothingTimed(clock, delay);
      if |items| == 0 {
        return;
      }
      ghost var start, instantly := clock, Instantaneous(delay);
      assert instantly ==> forall n :: delay(n) == 0.0;
      assert items[..0] == [] && items[..|items|] == items;
      hide Sending, SendingSingly, SingleDates, Proper, Concatenated, InDateOrder, Instantaneous, Timed, Gathering;
      var currentDate := clock;
      var toSend: seq<Item> := [];
      for i := 0 to |items|
        invariant Sending(items[..i], batches, toSend, currentDate, clock) && currentDate == clock
        invariant instantly ==> SendingSingly(batches, toSend, currentDate, clock, start)
        invariant Timed(batches, start, delay) && Gathering(batches, toSend, clock, start, delay)
      {
        toSend, currentDate := TakeItem(items, i, toSend, currentDate, delay, start, instantly);
      }
      Sent(items, batches, toSend, currentDate, clock, clock);
      if instantly { SentSingly(batches, toSend, currentDate, clock, start); }
      SentTimed(batches, toSend, clock, start, delay);
      SendToServer(toSend, delay);
    }
  }

  // ----- when each batch is sent -----

  /** The first batch is sent at the start, or at the date of its first item if that is later. Each other one
      begins with an item that was not due when the batch before it was sent, and is sent at that item's date,
      late by the time that the send before it took. */
  ghost predicate Timed(batches: seq<Batch>, start: real, delay: Delays) {
    forall b: nat :: b < |batches| ==> InTime(batches, b, start, delay)
  }

  ghost predicate InTime(batches: seq<Batch>, b: nat, start: real, delay: Delays)
    requires b < |batches|
  {
    && batches[b].items != []
    && (b == 0 ==> batches[0].sentAt == if batches[0].items[0].date > start then batches[0].items[0].date else start)
    && (b > 0 ==> batches[b].items[0].date > batches[b - 1].sentAt
                  && batches[b].sentAt == batches[b].items[0].date + delay(b - 1))
  }

  /** If what waits were sent now, it would be in time. */
  ghost predicate Gathering(batches: seq<Batch>, toSend: seq<Item>, clock: real, start: real, delay: Delays) {
    if toSend == [] then batches == [] && clock == start
    else if batches == [] then clock == if toSend[0].date > start then toSend[0].date else start
    else toSend[0].date > batches[|batches| - 1].sentAt && clock == toSend[0].date + delay(|batches| - 1)
  }

  lemma NothingTimed(start: real, delay: Delays)
    ensures Timed([], start, delay) && Gathering([], [], start, start, delay)
  {
  }

  lemma SentTimed(batches: seq<Batch>, toSend: seq<Item>, clock: real, start: real, delay: Delays)
    requires Timed(batches, start, delay) && Gathering(batches, toSend, clock, start, delay)
    ensures Timed(WithBatch(batches, toSend, clock), start, delay)
  {
    var batches' := WithBatch(batches, toSend, clock);
    forall b: nat | b < |batches'| ensures InTime(batches', b, start, delay) {
      if b < |batches| { assert InTime(batches, b, start, delay); }
    }
  }

  lemma GatheringMore(batches: seq<Batch>, toSend: seq<Item>, item: Item, clock: real, start: real, delay: Delays)
    requires Gathering(batches, toSend, clock, start, delay) && item.date <= clock
    ensures Gathering(batches, toSend + [item], clock, start, delay)
  {
  }

  lemma TimedMore(batches: seq<Batch>, toSend: seq<Item>, item: Item, currentDate: real, clock: real, start: real,
                  delay: Delays)
    requires item.date > currentDate
    ensures Timed(batches, start, delay) && Gathering(batches, toSend, clock, start, delay) && currentDate == clock ==>
              var batches' := WithBatch(batches, toSend, clock);
              var later := clock + (if toSend == [] then 0.0 else delay(|batches|)) + (item.date - currentDate);
              Timed(batches', start, delay) && Gathering(batches', [item], later, start, delay)
  {
    if Timed(batches, start, delay) && Gathering(batches, toSend, clock, start, delay) {
      SentTimed(batches, toSend, clock, start, delay);
    }
  }

  lemma Nothing(start: real)
    ensures Sending([], [], [], start, start) && SendingSingly([], [], start, start, start)
    ensures Concatenated([]) == [] && Proper([]) && SingleDates([], start)
  {
  }

  ghost function WithBatch(batches: seq<Batch>, toSend: seq<Item>, clock: real): seq<Batch> {
    if toSend == [] then batches else batches + [Batch(toSend, clock)]
  }

  /** The items done so far are sent, or wait for it and are due. */
  ghost predicate Sending(done: seq<Item>, batches: seq<Batch>, toSend: seq<Item>, currentDate: real, clock: real) {
    && Concatenated(batches) + toSend == done && Proper(batches)
    && (forall k :: 0 <= k < |toSend| ==> toSend[k].date <= currentDate) && currentDate <= clock
    && forall b :: 0 <= b < |batches| ==> batches[b].sentAt <= clock
  }

  lemma ProperMore(batches: seq<Batch>, b: Batch)
    requires Proper(batches) && Due(b)
    requires forall c :: 0 <= c < |batches| ==> batches[c].sentAt <= b.sentAt
    ensures Proper(batches + [b])
  {
  }

  lemma Sent(done: seq<Item>, batches: seq<Batch>, toSend: seq<Item>, currentDate: real, clock: real, later: real)
    requires Sending(done, batches, toSend, currentDate, clock) && later >= clock
    ensures var batches' := WithBatch(batches, toSend, clock);
            && Concatenated(batches') == done && Proper(batches') && Sending(done, batches', [], currentDate, later)
  {
    var batches' := WithBatch(batches, toSend, clock);
    if toSend == [] {
      assert Concatenated(batches) + [] == Concatenated(batches);
    } else {
      SentBatches(batches, toSend, currentDate, clock);
      hide Proper, Concatenated;
      assert Concatenated(batches') + [] == Concatenated(batches');
    }
  }

  lemma SentBatches(batches: seq<Batch>, toSend: seq<Item>, currentDate: real, clock: real)
    requires Proper(batches) && toSend != [] && currentDate <= clock
    requires forall k :: 0 <= k < |toSend| ==> toSend[k].date <= currentDate
    requires forall b :: 0 <= b < |batches| ==> batches[b].sentAt <= clock
    ensures var batches' := batches + [Batch(toSend, clock)];
            && Proper(batches') && Concatenated(batches') == Concatenated(batches) + toSend
            && forall b :: 0 <= b < |batches'| ==> batches'[b].sentAt <= clock
  {
    ConcatenatedMore(batches, Batch(toSend, clock));
    ProperMore(batches, Batch(toSend, clock));
  }

  lemma Slept(items: seq<Item>, i: nat, batches: seq<Batch>, currentDate: real, clock: real)
    requires i < |items| && Sending(items[..i], batches, [], currentDate, clock) && items[i].date > currentDate
    ensures var later := clock + (items[i].date - currentDate);
            Sending(items[..i + 1], batches, [items[i]], later, later)
  {
    assert items[..i + 1] == items[..i] + [items[i]];
    assert Concatenated(batches) + [] == Concatenated(batches);
  }

  lemma Appended(items: seq<Item>, i: nat, batches: seq<Batch>, toSend: seq<Item>, currentDate: real, clock: real)
    requires i < |items| && Sending(items[..i], batches, toSend, currentDate, clock) && items[i].date <= currentDate
    ensures Sending(items[..i + 1], batches, toSend + [items[i]], currentDate, clock)
  {
    assert items[..i + 1] == items[..i] + [items[i]];
    assert Concatenated(batches) + (toSend + [items[i]]) == (Concatenated(batches) + toSend) + [items[i]];
  }

  /** ... and if sending takes no time, what waits has the current date, unless it is the backlog. */
  ghost predicate SendingSingly(batches: seq<Batch>, toSend: seq<Item>, currentDate: real, clock: real, start: real) {
    && clock == currentDate >= start && SingleDates(batches, start)
    && (if currentDate == start then batches == []
        else toSend != [] && forall k :: 0 <= k < |toSend| ==> toSend[k].date == currentDate)
  }

  lemma SentSingly(batches: seq<Batch>, toSend: seq<Item>, currentDate: real, clock: real, start: real)
    requires SendingSingly(batches, toSend, currentDate, clock, start)
    ensures SingleDates(WithBatch(batches, toSend, clock), start) && clock == currentDate >= start
  {
  }

  lemma SleptSingly(item: Item, batches: seq<Batch>, currentDate: real, clock: real, start: real)
    requires SingleDates(batches, start) && clock == currentDate >= start && item.date > currentDate
    ensures var later := clock + (item.date - currentDate); SendingSingly(batches, [item], later, later, start)
  {
  }

  lemma AppendedSingly(items: seq<Item>, i: nat, batches: seq<Batch>, toSend: seq<Item>, currentDate: real,
                          clock: real, start: real)
    requires InDateOrder(items) && i < |items| && Sending(items[..i], batches, toSend, currentDate, clock)
    requires SendingSingly(batches, toSend, currentDate, clock, start) && items[i].date <= currentDate
    ensures SendingSingly(batches, toSend + [items[i]], currentDate, clock, start)
  {
    if currentDate != start {
      var sent := Concatenated(batches);
      assert (sent + toSend)[|sent|] == toSend[0];
      assert items[..i][|sent|] == items[|sent|];
    }
  }

  /** Every batch but the first has one date; if the first has not, it is the backlog at the start. */
  ghost predicate SingleDates(batches: seq<Batch>, start: real) {
    && (forall b :: 0 < b < |batches| ==> OneDate(batches[b]))
    && (|batches| > 0 && !OneDate(batches[0]) ==> batches[0].sentAt == start)
  }

  // ----- the order of jobs -----

  /** operator< on strings */
  predicate StringBefore(a: string, b: string) {
    if a == [] || b == [] then a == [] && b != []
    else a[0] < b[0] || (a[0] == b[0] && StringBefore(a[1..], b[1..]))
  }

  lemma {:induction false} StringOrder(a: string, b: string)
    ensures !(StringBefore(a, b) && StringBefore(b, a)) && !StringBefore(a, a)
    ensures a != b ==> StringBefore(a, b) || StringBefore(b, a)
  {
    if a != [] {
      StringOrder(a[1..], if b == [] then [] else b[1..]);
      if b != [] && a[0] == b[0] {
        assert a == [a[0]] + a[1..] && b == [b[0]] + b[1..];
      }
    }
  }

  lemma {:induction false} StringTransitive(a: string, b: string, c: string)
    requires StringBefore(a, b) && StringBefore(b, c)
    ensures StringBefore(a, c)
  {
    if a != [] && a[0] == b[0] && b[0] == c[0] {
      StringTransitive(a[1..], b[1..], c[1..]);
    }
  }

  /** job_comparator_subtime_number, on jobs named by their ids */
  predicate JobBefore(a: Item, b: Item) {
    if a.date == b.date then StringBefore(a.what, b.what) else a.date < b.date
  }

  /** What std::sort makes of the jobs, in whatever order the map lists them. */
  ghost predicate SortedJobs(listed: seq<Item>, sorted: seq<Item>) {
    multiset(sorted) == multiset(listed) && NoneBefore(sorted)
  }

  ghost predicate NoneBefore(sorted: seq<Item>) {
    forall i, k :: 0 <= i < k < |sorted| ==> !JobBefore(sorted[k], sorted[i])
  }

  /** The jobs have different ids. */
  ghost predicate Identified(jobs: seq<Item>) {
    forall i, k :: 0 <= i < k < |jobs| ==> jobs[i].what != jobs[k].what
  }

  ghost predicate StrictlySorted(jobs: seq<Item>) {
    forall i, k :: 0 <= i < k < |jobs| ==> JobBefore(jobs[i], jobs[k])
  }

  lemma JobOrder(a: Item, b: Item)
    ensures !(JobBefore(a, b) && JobBefore(b, a)) && !JobBefore(a, a)
    ensures a.what != b.what ==> JobBefore(a, b) || JobBefore(b, a)
  {
    StringOrder(a.what, b.what);
  }

  lemma JobTransitive(a: Item, b: Item, c: Item)
    requires JobBefore(a, b) && JobBefore(b, c)
    ensures JobBefore(a, c)
  {
    if a.date == b.date && b.date == c.date {
      StringTransitive(a.what, b.what, c.what);
    }
  }

  /** Of two jobs of one date, the one comes first whose id has the smaller character where they differ ... */
  lemma TieByCharacter(date: real, p: string, c: char, d: char, r1: string, r2: string)
    requires c < d
    ensures JobBefore(Item(date, p + ([c] + r1)), Item(date, p + ([d] + r2)))
    ensures !JobBefore(Item(date, p + ([d] + r2)), Item(date, p + ([c] + r1)))
  {
    StringAfter(p, [c] + r1, [d] + r2);
    StringAfter(p, [d] + r2, [c] + r1);
  }

  /** ... or that ends there; and of two dates the earlier one. */
  lemma TieByLength(date: real, later: real, p: string, r: string, other: string)
    requires r != [] && date < later
    ensures JobBefore(Item(date, p), Item(date, p + r)) && !JobBefore(Item(date, p + r), Item(date, p))
    ensures JobBefore(Item(date, p), Item(later, other)) && !JobBefore(Item(later, other), Item(date, p))
  {
    StringAfter(p, [], r);
    StringAfter(p, r, []);
    assert p + [] == p;
  }

  lemma {:induction false} StringAfter(p: string, a: string, b: string)
    ensures StringBefore(p + a, p + b) == StringBefore(a, b)
  {
    if p == [] {
      assert p + a == a && p + b == b;
    } else {
      assert (p + a)[1..] == p[1..] + a && (p + b)[1..] == p[1..] + b;
      StringAfter(p[1..], a, b);
    }
  }

  lemma {:induction false} SameMembers(a: seq<Item>, b: seq<Item>)
    requires StrictlySorted(a) && StrictlySorted(b) && forall x :: x in a <==> x in b
    ensures a == b
  {
    assert (a != [] ==> a[0] in a) && (b != [] ==> b[0] in b);
    if a != [] && b != [] {
      assert a == [a[0]] + a[1..] && b == [b[0]] + b[1..];
      FirstOfBoth(a, b);
      forall x ensures x in a[1..] <==> x in b[1..] {
        assert x in a <==> x in b;
        JobOrder(a[0], a[0]);
        NotFirst(a);
        NotFirst(b);
      }
      SameMembers(a[1..], b[1..]);
    }
  }

  lemma NotFirst(a: seq<Item>)
    requires StrictlySorted(a) && a != []
    ensures a[0] !in a[1..]
  {
    forall k | 1 <= k < |a| ensures a[k] != a[0] { JobOrder(a[0], a[k]); }
  }

  lemma FirstOfBoth(a: seq<Item>, b: seq<Item>)
    requires StrictlySorted(a) && StrictlySorted(b) && a != [] && b != [] && a[0] in b && b[0] in a
    ensures a[0] == b[0]
  {
    var i :| 0 <= i < |b| && b[i] == a[0];
    var k :| 0 <= k < |a| && a[k] == b[0];
    JobOrder(a[0], b[0]);
  }

  lemma Strict(listed: seq<Item>, sorted: seq<Item>)
    requires SortedJobs(listed, sorted) && Identified(sorted)
    ensures StrictlySorted(sorted)
  {
    forall i, k | 0 <= i < k < |sorted| ensures JobBefore(sorted[i], sorted[k]) {
      JobOrder(sorted[i], sorted[k]);
    }
  }

  /** The list to submit does not depend on the order in which the map lists the jobs. */
  lemma SortIsUnique(listed: seq<Item>, listed': seq<Item>, sorted: seq<Item>,
                     sorted': seq<Item>)
    requires multiset(listed) == multiset(listed') && SortedJobs(listed, sorted) && SortedJobs(listed', sorted')
    requires Identified(sorted) && Identified(sorted')
    ensures sorted == sorted'
  {
    Strict(listed, sorted);
    Strict(listed', sorted');
    forall x ensures x in sorted <==> x in sorted' {
      assert x in sorted <==> x in multiset(sorted);
      assert x in sorted' <==> x in multiset(sorted');
    }
    SameMembers(sorted, sorted');
  }

  lemma SortedByDate(listed: seq<Item>, sorted: seq<Item>)
    requires SortedJobs(listed, sorted)
    ensures InDateOrder(sorted)
  {
    forall i, k | 0 <= i < k < |sorted| ensures sorted[i].date <= sorted[k].date {
      assert !JobBefore(sorted[k], sorted[i]);
    }
  }

  function Insert(x: Item, sorted: seq<Item>): seq<Item> {
    if sorted == [] || !JobBefore(sorted[0], x) then [x] + sorted else [sorted[0]] + Insert(x, sorted[1..])
  }

  /** What std::sort returns. */
  function Sort(listed: seq<Item>): seq<Item> {
    if listed == [] then [] else Insert(listed[0], Sort(listed[1..]))
  }

  lemma {:induction false} InsertSorts(x: Item, sorted: seq<Item>)
    requires NoneBefore(sorted)
    ensures NoneBefore(Insert(x, sorted)) && multiset(Insert(x, sorted)) == multiset(sorted) + multiset{x}
  {
    if sorted != [] {
      assert sorted == [sorted[0]] + sorted[1..];
      if JobBefore(sorted[0], x) {
        InsertSorts(x, sorted[1..]);
        var rest := Insert(x, sorted[1..]);
        forall k | 0 <= k < |rest| ensures !JobBefore(rest[k], sorted[0]) {
          assert rest[k] in multiset(rest);
          JobOrder(sorted[0], x);
        }
      } else {
        forall k | 0 < k < |sorted| ensures !JobBefore(sorted[k], x) { NotBefore(x, sorted[0], sorted[k]); }
      }
    }
  }

  lemma NotBefore(a: Item, b: Item, c: Item)
    requires !JobBefore(b, a) && !JobBefore(c, b)
    ensures !JobBefore(c, a)
  {
    if JobBefore(c, a) {
      JobOrder(a, b);
      JobOrder(b, c);
      if a.what != b.what { JobTransitive(c, a, b); }
    }
  }

  lemma {:induction false} SortSorts(listed: seq<Item>)
    ensures SortedJobs(listed, Sort(listed))
  {
    if listed != [] {
      SortSorts(listed[1..]);
      InsertSorts(listed[0], Sort(listed[1..]));
      assert listed == [listed[0]] + listed[1..];
    }
  }

  /** static_job_submitter_process, for the jobs in the order of the map */
  method SubmitJobs(listed: seq<Item>, start: real, delay: Delays) returns (submitter: Submitter)
    requires forall n :: delay(n) >= 0.0
    ensures SortedJobs(listed, Concatenated(submitter.batches))
    ensures Proper(submitter.batches)
    ensures Instantaneous(delay) ==> SingleDates(submitter.batches, start)
    ensures Timed(submitter.batches, start, delay)
  {
    submitter := new Submitter(start);
    SortSorts(listed);
    SortedByDate(listed, Sort(listed));
    submitter.SubmitAll(Sort(listed), delay);
  }
}
