/**
 * The `employees` slice (store/employeeReducer.js): a list of `{ id, name }` records
 * and the module-level counter `id`, which `addEmployee` pre-increments to number
 * each new record.
 */
module Employees {
  import opened Js

  /** The record `{ id, name }` that `addEmployee` pushes. */
  datatype Employee = Employee(id: int, name: Value)

  /** The counter's value when the module loads. */
  const InitialCounter: int := 1

  /** Every id is smaller than every later one. */
  predicate IdsIncreasing(es: seq<Employee>) {
    forall i, j :: 0 <= i < j < |es| ==> es[i].id < es[j].id
  }

  /** Every id lies in `lo..hi`. */
  predicate IdsWithin(es: seq<Employee>, lo: int, hi: int) {
    forall i :: 0 <= i < |es| ==> lo <= es[i].id <= hi
  }

  lemma {:induction false} IdsAtLeast(es: seq<Employee>, lo: int, k: nat)
    requires IdsIncreasing(es) && k < |es|
    requires forall i :: 0 <= i < |es| ==> lo <= es[i].id
    ensures es[k].id >= lo + k
  {
    if k > 0 {
      IdsAtLeast(es, lo, k - 1);
    }
  }

  lemma {:induction false} IdsAtMost(es: seq<Employee>, hi: int, k: nat)
    requires IdsIncreasing(es) && k < |es|
    requires forall i :: 0 <= i < |es| ==> es[i].id <= hi
    ensures es[k].id <= hi - (|es| - 1 - k)
    decreases |es| - k
  {
    if k < |es| - 1 {
      IdsAtMost(es, hi, k + 1);
    }
  }

  /** Increasing ids packed into a range exactly as long as the list are the
      consecutive numbers from its lower end. */
  lemma TightIds(es: seq<Employee>, lo: int)
    requires IdsIncreasing(es)
    requires IdsWithin(es, lo, lo + |es| - 1)
    ensures forall k :: 0 <= k < |es| ==> es[k].id == lo + k
  {
    forall k | 0 <= k < |es|
      ensures es[k].id == lo + k
    {
      IdsAtLeast(es, lo, k);
      IdsAtMost(es, lo + |es| - 1, k);
    }
  }

  /** The slice state together with the module's counter. */
  class EmployeeSlice {
    /** The module-level `let id`. */
    var id: int
    var employees: seq<Employee>
    /** How many times `addEmployee` has run, including runs that threw. */
    ghost var calls: nat

    ghost predicate Valid()
      reads this
    {
      id == InitialCounter + calls &&
      |employees| <= calls &&
      IdsIncreasing(employees) &&
      IdsWithin(employees, InitialCounter + 1, id)
    }

    /** The module loads with `id = 1` and the slice's `initialState` is `[]`. */
    constructor ()
      ensures Valid()
      ensures id == InitialCounter && employees == [] && calls == 0
    {
      id := InitialCounter;
      employees := [];
      calls := 0;
    }

    /** `addEmployee`: `state.push({ id: ++id, name: action.payload.name })`. The
        counter moves before the payload is read, so a nullish payload still uses
        up an id, while the push is abandoned. */
    method AddEmployee(payload: Value) returns (c: Result<()>)
      requires Valid()
      modifies this
      ensures Valid()
      ensures id == old(id) + 1 && calls == old(calls) + 1
      ensures forall i :: 0 <= i < |old(employees)| ==> old(employees)[i].id < id
      ensures c.Throw? <==> Nullish(payload)
      ensures c.Normal? ==> employees == old(employees) + [Employee(id, Prop(payload, "name").value)]
      ensures c.Throw? ==> employees == old(employees)
    {
      id := id + 1;
      calls := calls + 1;
      var name := Prop(payload, "name");
      if name.Throw? {
        return Throw(name.message);
      }
      employees := employees + [Employee(id, name.value)];
      c := Normal(());
    }
  }

  /** The ids in the state are pairwise distinct. */
  lemma IdsDistinct(s: EmployeeSlice)
    requires s.Valid()
    ensures forall i, j :: 0 <= i < |s.employees| && 0 <= j < |s.employees| && i != j ==>
              s.employees[i].id != s.employees[j].id
  {
    forall i, j | 0 <= i < |s.employees| && 0 <= j < |s.employees| && i != j
      ensures s.employees[i].id != s.employees[j].id
    {
      if i < j {
        assert s.employees[i].id < s.employees[j].id;
      } else {
        assert s.employees[j].id < s.employees[i].id;
      }
    }
  }

  /** When no call has thrown, the k-th employee added (counting from 1) has id k + 1. */
  lemma IdsWhenNoCallFailed(s: EmployeeSlice)
    requires s.Valid() && |s.employees| == s.calls
    ensures forall k :: 0 <= k < |s.employees| ==> s.employees[k].id == k + 2
  {
    TightIds(s.employees, InitialCounter + 1);
  }
}
