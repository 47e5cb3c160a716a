/** `TimeWindowCounter`: per-second sums over the last 60 seconds in a circular array. The clock is passed in;
    a call that reads it twice gets two readings. */
module TimeWindow {

  const MAX_SAMPLES: nat := 60

  /** A recorded value with the virtual second it fell in, the time it was recorded and the value that
      `last_update_ms_` had then. */
  datatype Entry = Entry(value: nat, second: nat, time: nat, base: nat)

  /** The reference: the sum of the logged values of the virtual seconds `lo` to `hi`. */
  ghost function Sum(log: seq<Entry>, lo: int, hi: int): nat {
    if log == [] then 0 else
      Sum(log[..|log| - 1], lo, hi) + if lo <= log[|log| - 1].second <= hi then log[|log| - 1].value else 0
  }

  lemma SumOneMore(log: seq<Entry>, e: Entry, lo: int, hi: int)
    ensures Sum(log + [e], lo, hi) == Sum(log, lo, hi) + if lo <= e.second <= hi then e.value else 0
  {
    assert (log + [e])[..|log|] == log;
  }

  lemma {:induction false} SumSplit(log: seq<Entry>, lo: int, mid: int, hi: int)
    requires lo <= mid <= hi + 1
    ensures Sum(log, lo, hi) == Sum(log, lo, mid - 1) + Sum(log, mid, hi)
  {
    if log != [] {
      SumSplit(log[..|log| - 1], lo, mid, hi);
    }
  }

  lemma {:induction false} SumNone(log: seq<Entry>, lo: int, hi: int)
    requires forall i :: 0 <= i < |log| ==> !(lo <= log[i].second <= hi)
    ensures Sum(log, lo, hi) == 0
  {
    if log != [] {
      SumNone(log[..|log| - 1], lo, hi);
    }
  }

  /** The sum of the values recorded at `since` or later, in real time. */
  ghost function RecentSum(log: seq<Entry>, since: int): nat {
    if log == [] then 0 else
      RecentSum(log[..|log| - 1], since) + if since <= log[|log| - 1].time then log[|log| - 1].value else 0
  }

  /** The slot of the second `k` seconds before the current one. */
  function Slot(pos: nat, k: nat): (i: nat)
    requires pos < MAX_SAMPLES && k < MAX_SAMPLES
    ensures i < MAX_SAMPLES
  {
    if k <= pos then pos - k else pos + MAX_SAMPLES - k
  }

  /** The slots hold the sums of the seconds up to `second`, with `i` empty seconds after it. */
  ghost predicate Holds(s: seq<nat>, pos: nat, log: seq<Entry>, second: nat, i: nat) {
    && |s| == MAX_SAMPLES && pos < MAX_SAMPLES
    && forall k :: 0 <= k < MAX_SAMPLES ==>
        s[Slot(pos, k)] == if k < i then 0 else Sum(log, second + i - k, second + i - k)
  }

  lemma HoldsAges(s: seq<nat>, pos: nat, log: seq<Entry>, second: nat, i: nat)
    requires Holds(s, pos, log, second, i)
    ensures var p := (pos + 1) % MAX_SAMPLES; Holds(s[p := 0], p, log, second, i + 1)
  {
    var p := (pos + 1) % MAX_SAMPLES;
    forall k | 0 <= k < MAX_SAMPLES
      ensures s[p := 0][Slot(p, k)] == if k < i + 1 then 0 else Sum(log, second + (i + 1) - k, second + (i + 1) - k)
    {
      if k > 0 {
        assert Slot(p, k) == Slot(pos, k - 1);
      }
    }
  }

  /** `i` empty seconds stand for `elapsed` of them, if `i` is all of them or the whole window. */
  lemma HoldsAdvanced(s: seq<nat>, pos: nat, log: seq<Entry>, second: nat, i: nat, elapsed: nat)
    requires Holds(s, pos, log, second, i) && i <= elapsed && (i == elapsed || i >= MAX_SAMPLES)
    requires forall j :: 0 <= j < |log| ==> log[j].second <= second
    ensures Holds(s, pos, log, second + elapsed, 0)
  {
    forall k | 0 <= k < MAX_SAMPLES ensures s[Slot(pos, k)] == Sum(log, second + elapsed - k, second + elapsed - k) {
      if k < i {
        SumNone(log, second + elapsed - k, second + elapsed - k);
      }
    }
  }

  lemma HoldsRecorded(s: seq<nat>, pos: nat, log: seq<Entry>, second: nat, e: Entry)
    requires Holds(s, pos, log, second, 0) && e.second == second
    ensures Holds(s[pos := s[pos] + e.value], pos, log + [e], second, 0)
  {
    forall k | 0 <= k < MAX_SAMPLES
      ensures s[pos := s[pos] + e.value][Slot(pos, k)] == Sum(log + [e], second - k, second - k)
    {
      SumOneMore(log, e, second - k, second - k);
      assert k > 0 ==> Slot(pos, k) != pos;
    }
  }

  lemma HoldsAt(s: seq<nat>, pos: nat, log: seq<Entry>, second: nat, i: nat)
    requires Holds(s, pos, log, second, 0) && i < MAX_SAMPLES
    ensures s[(pos - i + MAX_SAMPLES) % MAX_SAMPLES] + Sum(log, second - i + 1, second) == Sum(log, second - i, second)
  {
    assert (pos - i + MAX_SAMPLES) % MAX_SAMPLES == Slot(pos, i);
    SumSplit(log, second - i, second - i + 1, second);
  }

  lemma SumOlder(log: seq<Entry>, lo: int, second: int, gap: nat)
    requires lo <= second + 1
    requires forall j :: 0 <= j < |log| ==> log[j].second <= second
    ensures Sum(log, lo, second + gap) == Sum(log, lo, second)
  {
    SumSplit(log, lo, second + 1, second + gap);
    SumNone(log, second + 1, second + gap);
  }

  class TimeWindowCounter {
    const samples: array<nat>
    var writePos: nat
    var lastUpdate: nat

    /** History: everything recorded, and the virtual seconds counted so far. */
    ghost var log: seq<Entry>
    ghost var second: nat

    ghost predicate Valid()
      reads this, samples
    {
      && Holds(samples[..], writePos, log, second, 0)
      && (forall i :: 0 <= i < |log| ==> EntryOk(log[i]))
    }

    /** An entry is not of the future, and at most as many virtual seconds have passed since as real ones. */
    ghost predicate EntryOk(e: Entry)
      reads this
    {
      e.second <= second && e.time <= e.base + 999 && 1000 * (second - e.second) <= lastUpdate - e.base
    }

    constructor (now: nat)
      ensures Valid() && fresh(samples) && log == [] && lastUpdate == now
    {
      samples := new nat[MAX_SAMPLES](_ => 0);
      writePos, lastUpdate := 0, now;
      log, second := [], 0;
    }

    method AdvanceTimeWindow(now: nat, now2: nat)
      requires Valid() && lastUpdate <= now <= now2
      modifies this, samples
      ensures Valid() && log == old(log)
      ensures second == old(second) + (now - old(lastUpdate)) / 1000
      ensures lastUpdate == if now - old(lastUpdate) >= 1000 then now2 else old(lastUpdate)
    {
      var elapsed := (now - lastUpdate) / 1000;
      if elapsed >= 1 {
        var i := 0;
        while i < elapsed && i < MAX_SAMPLES
          invariant 0 <= i <= elapsed && i <= MAX_SAMPLES
          invariant Holds(samples[..], writePos, log, second, i)
          invariant lastUpdate == old(lastUpdate) && log == old(log) && second == old(second)
        {
          HoldsAges(samples[..], writePos, log, second, i);
          ghost var before := samples[..];
          writePos := (writePos + 1) % MAX_SAMPLES;
          samples[writePos] := 0;
          assert samples[..] == before[writePos := 0];
          i := i + 1;
        }
        HoldsAdvanced(samples[..], writePos, log, second, i, elapsed);
        lastUpdate := now2;
        second := second + elapsed;
      }
    }

    method Record(value: nat, now: nat, now2: nat)
      requires Valid() && lastUpdate <= now <= now2
      modifies this, samples
      ensures Valid()
      ensures second == old(second) + (now - old(lastUpdate)) / 1000
      ensures lastUpdate == if now - old(lastUpdate) >= 1000 then now2 else old(lastUpdate)
      ensures log == old(log) + [Entry(value, second, if now - old(lastUpdate) >= 1000 then now2 else now, lastUpdate)]
    {
      AdvanceTimeWindow(now, now2);
      ghost var e := Entry(value, second, if now - old(lastUpdate) >= 1000 then now2 else now, lastUpdate);
      ghost var before := samples[..];
      HoldsRecorded(before, writePos, log, second, e);
      samples[writePos] := samples[writePos] + value;
      assert samples[..] == before[writePos := before[writePos] + value];
      log := log + [e];
    }

    /** The virtual second a reader at `now` is in. */
    ghost function Now(now: nat): int
      reads this
      requires lastUpdate <= now
    {
      second + (now - lastUpdate) / 1000
    }

    /** The loop of `get_average`: the newest `n` slots are the last `n` virtual seconds up to the current one. */
    method Total(n: nat) returns (total: nat)
      requires Valid() && n <= MAX_SAMPLES
      ensures total == Sum(log, second - n + 1, second)
    {
      total := 0;
      SumNone(log, second + 1, second);
      for i := 0 to n
        invariant total == Sum(log, second - i + 1, second)
      {
        var index := (writePos - i + MAX_SAMPLES) % MAX_SAMPLES;
        HoldsAt(samples[..], writePos, log, second, i);
        total := total + samples[index];
      }
    }

    /** The average is the one of the full log over the last `seconds` virtual seconds. */
    method GetAverage(seconds: int, now: nat) returns (average: real)
      requires Valid() && lastUpdate <= now
      ensures 1 <= seconds <= MAX_SAMPLES ==>
        average == Sum(log, Now(now) - seconds + 1, Now(now)) as real / seconds as real
      ensures !(1 <= seconds <= MAX_SAMPLES) ==> average == 0.0
    {
      if seconds <= 0 || seconds > MAX_SAMPLES {
        return 0.0;
      }
      var gap := (now - lastUpdate) / 1000;
      if gap >= seconds {
        SumNone(log, Now(now) - seconds + 1, Now(now));
        return 0.0;
      }
      var total := Total(seconds - gap);
      SumOlder(log, second - (seconds - gap) + 1, second, gap);
      average := total as real / seconds as real;
    }

    /** No value of the last `seconds - 1` real seconds is missed, though each advance discards the part of a second. */
    lemma RecentIsCounted(seconds: int, now: nat, i: nat)
      requires Valid() && lastUpdate <= now && i < |log|
      ensures now - 1000 * (seconds - 1) <= log[i].time ==> Now(now) - seconds + 1 <= log[i].second <= Now(now)
    {
      assert EntryOk(log[i]);
    }

    /** So the sum behind the average is at least that of the values of that time. */
    lemma {:induction false} RecentSumIsCounted(seconds: int, now: nat, n: nat)
      requires Valid() && lastUpdate <= now && n <= |log|
      ensures RecentSum(log[..n], now - 1000 * (seconds - 1)) <= Sum(log[..n], Now(now) - seconds + 1, Now(now))
    {
      if n > 0 {
        RecentSumIsCounted(seconds, now, n - 1);
        assert log[..n][..n - 1] == log[..n - 1];
        RecentIsCounted(seconds, now, n - 1);
      }
    }
  }
}
