/** What the boot loaders start, for any number of entries and any counter. */
module Loaders {
  import opened Options
  import opened Assessments
  import opened Protocol

  /** GRUB falls back to the second entry, if there is one, when the counter is 0 or -1, or when
      the first entry fails to load and the fallback variable is set; the snippet counts every
      boot it sees a counter on, and a spent counter stays spent. */
  lemma {:induction false} GrubStarts(m: Machine, loads: bool, saved: bool)
    requires m.up.Off? && m.disk.Grub? && m.disk.order != []
    ensures var m', d := Step(m, PowerOn(loads, saved)), m.disk;
      var spent := d.counter == Some(0) || d.counter == Some(-1);
      var falls := |d.order| > 1 && (if spent then loads else !loads && d.fallback);
      && m'.cfg == m.cfg && m'.rejected == m.rejected
      && m'.up == (if falls then On(Fresh(d.order[1], None)) else if loads then On(Fresh(d.order[0], None)) else Off)
      && m'.disk == d.(counter :=
           if d.counter.None? || !saved then d.counter else if spent then Some(-1) else Some(d.counter.value - 1))
  {
  }

  /** systemd-boot starts the first entry with tries left or no counter, or, if all are out of
      tries, the first; it takes one try off that entry and no other. */
  lemma {:induction false} SdStarts(m: Machine, loads: bool, saved: bool, i: nat)
    requires m.up.Off? && m.disk.SdBoot? && i < |m.disk.entries|
    requires var es := m.disk.entries;
      if forall e :: e in es ==> e.tries.Some? && e.tries.value.left == 0 then i == 0
      else (es[i].tries.None? || es[i].tries.value.left > 0) &&
           forall j :: 0 <= j < i ==> es[j].tries.Some? && es[j].tries.value.left == 0
    ensures var m', e := Step(m, PowerOn(loads, saved)), m.disk.entries[i];
      var counted := if e.tries.None? then e
        else Entry(e.dep, Some(Tries(if e.tries.value.left == 0 then 0 else e.tries.value.left - 1, e.tries.value.done + 1)));
      && m'.cfg == m.cfg && m'.rejected == m.rejected
      && m'.disk == m.disk.(entries := m.disk.entries[i := counted])
      && m'.up == (if loads then On(Fresh(e.dep, if e.tries.Some? then Some(counted) else None)) else Off)
  {
    var es := m.disk.entries;
    assert forall k :: 0 <= k < |es| ==> es[k] in es;
    assert Choice(es) == i;
  }

  /** A swap exchanges the first two and keeps the rest; a second one takes it back. */
  lemma SwappedTwice(order: seq<Deployment>)
    requires |order| > 1
    ensures |Swapped(order)| == |order| && Swapped(Swapped(order)) == order
    ensures Swapped(order)[0] == order[1] && forall i :: 2 <= i < |order| ==> Swapped(order)[i] == order[i]
  {
  }

  /** After a failed check of a trial another attempt remains if and only if GRUB would count
      the next boot, and that boot would be a trial again. */
  lemma AttemptsRemainIff(counter: Option<int>, digest: string)
    requires counter.Some? ==> counter.value >= -1
    ensures AttemptsRemain(counter) <==>
      !Spent(counter) && Assess(Counted(counter), Some(digest), digest) == TrialInProgress
  {
  }
}
