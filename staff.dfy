/**
 * The staff handlers: adding or editing a staff member, recording a salary payment, marking a
 * day absent or present again, and removing a staff member.  A number the user typed is
 * `None` when it does not parse (`isNaN`).
 */
module StaffBook {
  import opened Wrappers
  import opened Text
  import opened Records
  import opened Seqs

  /** `name.trim()` non-empty and a salary that is a positive number. */
  predicate ValidStaffInput(name: string, salary: Option<int>) {
    Trim(name) != "" && salary.Some? && salary.value > 0
  }

  /** `staff.map(s => s.id === staffId ? f(s) : s)` for the three per-member updates. */
  datatype StaffChange = Rename(name: string, salary: int) | Pay(payment: StaffPayment) | Toggle(date: Date)

  /** `absences.includes(d) ? absences.filter(x => x !== d) : [...absences, d]`. */
  function ToggleDate(absences: seq<Date>, d: Date): (r: seq<Date>)
    ensures d in absences ==> r == Without(absences, d)
    ensures d !in absences ==> r == absences + [d]
  {
    if d in absences then Without(absences, d) else absences + [d]
  }

  function Without(ds: seq<Date>, d: Date): (r: seq<Date>)
    ensures forall x :: x in r <==> x in ds && x != d
    ensures |r| <= |ds|
  {
    if ds == [] then []
    else
      var last := ds[|ds| - 1];
      assert forall x :: x in ds <==> x in ds[..|ds| - 1] || x == last by {
        assert ds == ds[..|ds| - 1] + [last];
      }
      Without(ds[..|ds| - 1], d) + (if last != d then [last] else [])
  }

  function ApplyChange(s: StaffMember, c: StaffChange): StaffMember {
    match c
    case Rename(name, salary) => s.(name := name, monthlySalary := salary)
    case Pay(p) => s.(payments := s.payments + [p])
    case Toggle(d) => s.(absences := ToggleDate(s.absences, d))
  }

  function ChangeStaff(ss: seq<StaffMember>, staffId: int, c: StaffChange): (r: seq<StaffMember>)
    ensures |r| == |ss|
    ensures forall i :: 0 <= i < |ss| ==> r[i] == (if ss[i].id == staffId then ApplyChange(ss[i], c) else ss[i])
  {
    if ss == [] then []
    else
      var s := ss[|ss| - 1];
      ChangeStaff(ss[..|ss| - 1], staffId, c) + [if s.id == staffId then ApplyChange(s, c) else s]
  }

  /** `handleSaveStaff`: `editing` is the id of the member being edited, or `None` when adding;
      `id` stands for the clock reading given to a new member.  The name is stored as typed. */
  function SaveStaff(prev: AppState, editing: Option<int>, name: string, salary: Option<int>, id: int): AppState {
    if !ValidStaffInput(name, salary) then prev
    else if editing.Some? then prev.(staff := ChangeStaff(prev.staff, editing.value, Rename(name, salary.value)))
    else prev.(staff := prev.staff + [StaffMember(id, name, salary.value, [], [])])
  }

  /** Invalid input changes nothing; adding appends one member with no absences and no
      payments; editing changes only the name and salary of the members with that id. */
  lemma SaveStaffEffect(prev: AppState, editing: Option<int>, name: string, salary: Option<int>, id: int)
    ensures var next := SaveStaff(prev, editing, name, salary, id);
      (!ValidStaffInput(name, salary) ==> next == prev)
      && next.entries == prev.entries && next.creditors == prev.creditors
      && (ValidStaffInput(name, salary) && editing.None? ==>
            next.staff[..|prev.staff|] == prev.staff && |next.staff| == |prev.staff| + 1
            && next.staff[|prev.staff|] == StaffMember(id, name, salary.value, [], []))
      && (ValidStaffInput(name, salary) && editing.Some? ==>
            |next.staff| == |prev.staff|
            && forall i :: 0 <= i < |prev.staff| ==>
                 next.staff[i].id == prev.staff[i].id
                 && next.staff[i].absences == prev.staff[i].absences
                 && next.staff[i].payments == prev.staff[i].payments
                 && (prev.staff[i].id == editing.value ==>
                       next.staff[i].name == name && next.staff[i].monthlySalary == salary.value)
                 && (prev.staff[i].id != editing.value ==> next.staff[i] == prev.staff[i]))
  {
    if ValidStaffInput(name, salary) && editing.None? {
      assert (prev.staff + [StaffMember(id, name, salary.value, [], [])])[..|prev.staff|] == prev.staff;
    }
  }

  /** `handleSavePayment`: `paying` is the member whose payment dialog is open; `today` stands
      for the clock's date and `paymentId` for its reading.  The description is stored as typed. */
  function SavePayment(prev: AppState, paying: Option<int>, amount: Option<int>, description: string, today: Date, paymentId: int): AppState {
    if paying.None? || amount.None? || amount.value <= 0 || Trim(description) == "" then prev
    else prev.(staff := ChangeStaff(prev.staff, paying.value, Pay(StaffPayment(paymentId, today, amount.value, description))))
  }

  /** A valid payment is appended to that member's payments, dated today, and to nobody
      else's; anything else changes nothing. */
  lemma SavePaymentEffect(prev: AppState, paying: Option<int>, amount: Option<int>, description: string, today: Date, paymentId: int)
    ensures var next := SavePayment(prev, paying, amount, description, today, paymentId);
      var ok := paying.Some? && amount.Some? && amount.value > 0 && Trim(description) != "";
      (!ok ==> next == prev)
      && next.entries == prev.entries && |next.staff| == |prev.staff|
      && (ok ==> forall i :: 0 <= i < |prev.staff| ==>
            (prev.staff[i].id == paying.value ==>
               next.staff[i] == prev.staff[i].(payments := prev.staff[i].payments
                                                 + [StaffPayment(paymentId, today, amount.value, description)]))
            && (prev.staff[i].id != paying.value ==> next.staff[i] == prev.staff[i]))
  {
  }

  /** `toggleAbsence`. */
  function ToggleAbsence(prev: AppState, staffId: int, d: Date): AppState {
    prev.(staff := ChangeStaff(prev.staff, staffId, Toggle(d)))
  }

  /** Toggling flips whether that day is an absence of that member and leaves every other day,
      every other member and everything but the absences alone. */
  lemma ToggleAbsenceEffect(prev: AppState, staffId: int, d: Date, i: int)
    requires 0 <= i < |prev.staff|
    ensures var next := ToggleAbsence(prev, staffId, d);
      var before := prev.staff[i].absences;
      var after := next.staff[i].absences;
      |next.staff| == |prev.staff| && next.entries == prev.entries
      && next.staff[i] == prev.staff[i].(absences := after)
      && (prev.staff[i].id == staffId ==>
            (d in after <==> d !in before) && forall x :: x != d ==> (x in after <==> x in before))
      && (prev.staff[i].id != staffId ==> next.staff[i] == prev.staff[i])
  {
  }

  /** No day is marked absent twice. */
  predicate NoRepeats(ds: seq<Date>) {
    forall i, j :: 0 <= i < j < |ds| ==> ds[i] != ds[j]
  }

  lemma {:induction false} WithoutKeepsNoRepeats(ds: seq<Date>, d: Date)
    requires NoRepeats(ds)
    ensures NoRepeats(Without(ds, d))
    decreases |ds|
  {
    if ds != [] {
      var init := ds[..|ds| - 1];
      var last := ds[|ds| - 1];
      assert NoRepeats(init);
      WithoutKeepsNoRepeats(init, d);
      var rest := Without(init, d);
      if last != d {
        var r := rest + [last];
        forall i, j | 0 <= i < j < |r| ensures r[i] != r[j] {
          if j == |r| - 1 {
            assert r[i] in rest;
            var m :| 0 <= m < |init| && init[m] == r[i];
            assert ds[m] == r[i];
          } else {
            assert r[i] == rest[i] && r[j] == rest[j];
          }
        }
      }
    }
  }

  /** The absences of a member stay free of repeats; toggling the same day twice gives back the
      same set of days, and exactly the same list when the day was not marked. */
  lemma ToggleTwice(absences: seq<Date>, d: Date)
    requires NoRepeats(absences)
    ensures NoRepeats(ToggleDate(absences, d))
    ensures forall x :: x in ToggleDate(ToggleDate(absences, d), d) <==> x in absences
    ensures d !in absences ==> ToggleDate(ToggleDate(absences, d), d) == absences
  {
    if d in absences {
      WithoutKeepsNoRepeats(absences, d);
    } else {
      WithoutNoOp(absences, d);
      var a := absences + [d];
      assert a[..|a| - 1] == absences;
      assert NoRepeats(a) by {
        forall i, j | 0 <= i < j < |a| ensures a[i] != a[j] {
          if j == |a| - 1 {
            assert a[i] == absences[i];
          }
        }
      }
    }
  }

  lemma {:induction false} WithoutNoOp(ds: seq<Date>, d: Date)
    requires d !in ds
    ensures Without(ds, d) == ds
    decreases |ds|
  {
    if ds != [] {
      assert ds == ds[..|ds| - 1] + [ds[|ds| - 1]];
      WithoutNoOp(ds[..|ds| - 1], d);
    }
  }

  /** The test of `staff.filter(s => s.id !== staffId)`. */
  function OtherStaff(staffId: int): StaffMember -> bool {
    (s: StaffMember) => s.id != staffId
  }

  /** `staff.filter(s => s.id !== staffId)`: the other members, in order (`KeepConcat`), each
      as often as before. */
  function KeepOtherStaff(ss: seq<StaffMember>, staffId: int): (r: seq<StaffMember>)
    ensures forall s :: s in r <==> s in ss && s.id != staffId
    ensures forall s :: multiset(r)[s] == if s.id != staffId then multiset(ss)[s] else 0
    ensures |r| <= |ss|
  {
    KeepCount(ss, OtherStaff(staffId));
    Keep(ss, OtherStaff(staffId))
  }

  function RemoveStaff(prev: AppState, staffId: int): AppState {
    prev.(staff := KeepOtherStaff(prev.staff, staffId))
  }

  /** Removing a member removes exactly the members with that id and nothing else. */
  lemma RemoveStaffEffect(prev: AppState, staffId: int)
    ensures var next := RemoveStaff(prev, staffId);
      (forall s :: s in next.staff <==> s in prev.staff && s.id != staffId)
      && next.entries == prev.entries && next.creditors == prev.creditors
  {
  }
}
