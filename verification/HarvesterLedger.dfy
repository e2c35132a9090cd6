/** The bookkeeping behind mineral rebalancing: a log of transfers between town halls, each taken
    from a hall above its ideal to a hall below it. */
module HarvesterLedger {
  import opened GameTypes

  datatype Transfer = Transfer(worker: Unit, source: Unit, receiver: Unit, patch: Unit)

  /** Harvesters a log adds to the hall with a tag, minus those it takes away. */
  function Moved(log: seq<Transfer>, t: Tag): int {
    if log == [] then 0
    else
      var last := log[|log| - 1];
      Moved(log[..|log| - 1], t) + (if last.receiver.tag == t then 1 else 0) - (if last.source.tag == t then 1 else 0)
  }

  function Assigned(h: Unit): nat {
    if h.assignedHarvesters > 0 then h.assignedHarvesters else 0
  }

  function Effective(h: Unit, log: seq<Transfer>): int {
    Assigned(h) + Moved(log, h.tag)
  }

  /** A transfer that may follow the log. */
  ghost predicate Legal(halls: seq<Unit>, log: seq<Transfer>, t: Transfer) {
    && t.source in halls && t.receiver in halls && t.source.tag != t.receiver.tag
    && Effective(t.source, log) > t.source.idealHarvesters
    && Effective(t.receiver, log) < t.receiver.idealHarvesters
  }

  ghost predicate LegalLog(halls: seq<Unit>, log: seq<Transfer>) {
    log == [] || (LegalLog(halls, log[..|log| - 1]) && Legal(halls, log[..|log| - 1], log[|log| - 1]))
  }

  lemma {:induction false} MovedByOne(log: seq<Transfer>, t: Transfer, tag: Tag)
    ensures Moved(log + [t], tag)
      == Moved(log, tag) + (if t.receiver.tag == tag then 1 else 0) - (if t.source.tag == tag then 1 else 0)
  {
  }

  lemma {:induction false} LegalLogExtends(halls: seq<Unit>, log: seq<Transfer>, t: Transfer)
    requires LegalLog(halls, log) && Legal(halls, log, t)
    ensures LegalLog(halls, log + [t])
  {
  }

  lemma SameTagSameHall(halls: seq<Unit>, a: Unit, b: Unit)
    requires Distinct(TagsOf(halls)) && a in halls && b in halls && a.tag == b.tag
    ensures a == b
  {
  }

  /** A hall that starts at or above its ideal is only drained, never below the ideal; a hall that
      starts at or below it is only filled, never above. */
  lemma {:induction false} NoOvershoot(halls: seq<Unit>, log: seq<Transfer>, h: Unit)
    requires Distinct(TagsOf(halls)) && LegalLog(halls, log) && h in halls
    ensures Assigned(h) >= h.idealHarvesters ==> h.idealHarvesters <= Effective(h, log) <= Assigned(h)
    ensures Assigned(h) <= h.idealHarvesters ==> Assigned(h) <= Effective(h, log) <= h.idealHarvesters
  {
    if log != [] {
      var last := log[|log| - 1];
      NoOvershoot(halls, log[..|log| - 1], h);
      if last.receiver.tag == h.tag {
        SameTagSameHall(halls, h, last.receiver);
      }
      if last.source.tag == h.tag {
        SameTagSameHall(halls, h, last.source);
      }
    }
  }

  /** Donors start above their ideal and receivers below, so no hall is ever both. */
  lemma {:induction false} DonorOrReceiver(halls: seq<Unit>, log: seq<Transfer>, k: nat)
    requires Distinct(TagsOf(halls)) && LegalLog(halls, log) && k < |log|
    ensures log[k].source in halls && Assigned(log[k].source) > log[k].source.idealHarvesters
    ensures log[k].receiver in halls && Assigned(log[k].receiver) < log[k].receiver.idealHarvesters
  {
    if k == |log| - 1 {
      NoOvershoot(halls, log[..k], log[k].source);
      NoOvershoot(halls, log[..k], log[k].receiver);
    } else {
      DonorOrReceiver(halls, log[..|log| - 1], k);
    }
  }

  lemma {:induction false} NeverBoth(halls: seq<Unit>, log: seq<Transfer>, k: nat, l: nat)
    requires Distinct(TagsOf(halls)) && LegalLog(halls, log) && k < |log| && l < |log|
    ensures log[k].source.tag != log[l].receiver.tag
  {
    DonorOrReceiver(halls, log, k);
    DonorOrReceiver(halls, log, l);
    if log[k].source.tag == log[l].receiver.tag {
      SameTagSameHall(halls, log[k].source, log[l].receiver);
    }
  }

  function TotalEffective(halls: seq<Unit>, log: seq<Transfer>): int {
    if halls == [] then 0
    else TotalEffective(halls[..|halls| - 1], log) + Effective(halls[|halls| - 1], log)
  }

  function Gap(h: Unit, log: seq<Transfer>): nat {
    var e := Effective(h, log) - h.idealHarvesters;
    if e < 0 then -e else e
  }

  /** How far the halls are from their ideals, all together. */
  function Imbalance(halls: seq<Unit>, log: seq<Transfer>): nat {
    if halls == [] then 0
    else Imbalance(halls[..|halls| - 1], log) + Gap(halls[|halls| - 1], log)
  }

  function CountTag(halls: seq<Unit>, t: Tag): nat {
    if halls == [] then 0
    else CountTag(halls[..|halls| - 1], t) + if halls[|halls| - 1].tag == t then 1 else 0
  }

  lemma {:induction false} CountOfHall(halls: seq<Unit>, h: Unit)
    requires Distinct(TagsOf(halls)) && h in halls
    ensures CountTag(halls, h.tag) == 1
  {
    var n := |halls| - 1;
    var tags := TagsOf(halls);
    assert TagsOf(halls[..n]) == tags[..n];
    if h == halls[n] {
      NoSuchTag(halls[..n], h.tag);
    } else {
      assert h in halls[..n];
      CountOfHall(halls[..n], h);
      var i :| 0 <= i < n && halls[i] == h;
      assert tags[i] != tags[n];
    }
  }

  lemma {:induction false} NoSuchTag(halls: seq<Unit>, t: Tag)
    requires forall h :: h in halls ==> h.tag != t
    ensures CountTag(halls, t) == 0
  {
    if halls != [] {
      NoSuchTag(halls[..|halls| - 1], t);
    }
  }

  lemma {:induction false} TotalAfter(halls: seq<Unit>, log: seq<Transfer>, t: Transfer)
    ensures TotalEffective(halls, log + [t])
      == TotalEffective(halls, log) + CountTag(halls, t.receiver.tag) - CountTag(halls, t.source.tag)
  {
    if halls != [] {
      TotalAfter(halls[..|halls| - 1], log, t);
      MovedByOne(log, t, halls[|halls| - 1].tag);
    }
  }

  /** Rebalancing moves harvesters around and creates or loses none. */
  lemma {:induction false} Conservation(halls: seq<Unit>, log: seq<Transfer>)
    requires Distinct(TagsOf(halls)) && LegalLog(halls, log)
    ensures TotalEffective(halls, log) == TotalEffective(halls, [])
  {
    if log != [] {
      var n := |log| - 1;
      Conservation(halls, log[..n]);
      assert log == log[..n] + [log[n]];
      TotalAfter(halls, log[..n], log[n]);
      CountOfHall(halls, log[n].source);
      CountOfHall(halls, log[n].receiver);
    }
  }

  lemma {:induction false} ImbalanceAfter(all: seq<Unit>, halls: seq<Unit>, log: seq<Transfer>, t: Transfer)
    requires Distinct(TagsOf(all)) && Legal(all, log, t)
    requires forall h :: h in halls ==> h in all
    ensures Imbalance(halls, log + [t])
      == Imbalance(halls, log) - CountTag(halls, t.receiver.tag) - CountTag(halls, t.source.tag)
  {
    if halls != [] {
      var last := halls[|halls| - 1];
      ImbalanceAfter(all, halls[..|halls| - 1], log, t);
      MovedByOne(log, t, last.tag);
      if last.tag == t.receiver.tag {
        SameTagSameHall(all, last, t.receiver);
      }
      if last.tag == t.source.tag {
        SameTagSameHall(all, last, t.source);
      }
    }
  }

  /** Every transfer brings the halls closer to their ideals by exactly two. */
  lemma {:induction false} TransferLowersImbalance(halls: seq<Unit>, log: seq<Transfer>, t: Transfer)
    requires Distinct(TagsOf(halls)) && Legal(halls, log, t)
    ensures Imbalance(halls, log + [t]) == Imbalance(halls, log) - 2
  {
    ImbalanceAfter(halls, halls, log, t);
    CountOfHall(halls, t.source);
    CountOfHall(halls, t.receiver);
  }

  lemma {:induction false} ImbalanceOfLog(halls: seq<Unit>, log: seq<Transfer>)
    requires Distinct(TagsOf(halls)) && LegalLog(halls, log)
    ensures Imbalance(halls, log) == Imbalance(halls, []) - 2 * |log|
  {
    if log != [] {
      var n := |log| - 1;
      ImbalanceOfLog(halls, log[..n]);
      assert log == log[..n] + [log[n]];
      TransferLowersImbalance(halls, log[..n], log[n]);
    }
  }
}
