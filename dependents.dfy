/** The dependent manager: the list of dependents with their monthly
    incomes, the warning on every dependent whose income exceeds the limit
    for claiming the dependent deduction, editing an income, and adding a
    dependent by name. */
module Dependents {
  import opened Types
  import opened Text
  import opened Constants

  /** A dependent earning more than the limit a month puts the deduction at
      risk of being clawed back. */
  predicate HasRisk(d: Dependent) {
    d.monthlyIncome > DependentIncomeLimit
  }

  /** The dependents shown with a warning, in list order. */
  function AtRisk(ds: seq<Dependent>): (r: seq<Dependent>)
    ensures forall i :: 0 <= i < |r| ==> r[i] in ds && HasRisk(r[i])
    ensures forall i :: 0 <= i < |ds| && HasRisk(ds[i]) ==> ds[i] in r
    ensures |r| <= |ds|
  {
    if ds == [] then []
    else
      var rest := AtRisk(ds[1..]);
      assert forall i :: 1 <= i < |ds| ==> ds[i] == ds[1..][i - 1];
      if HasRisk(ds[0]) then [ds[0]] + rest else rest
  }

  /** `dependents.map(d => d.id === id ? { ...d, monthlyIncome } : d)`. */
  function UpdateIncome(ds: seq<Dependent>, id: string, income: int): (r: seq<Dependent>)
    ensures |r| == |ds|
  {
    if ds == [] then []
    else
      var d := ds[0];
      [if d.id == id then d.(monthlyIncome := income) else d] + UpdateIncome(ds[1..], id, income)
  }

  /** Each dependent keeps its id, name and place; the income of every
      dependent with the id becomes the new income, and every other
      dependent is unchanged. */
  lemma {:induction false} UpdateIncomeAt(ds: seq<Dependent>, id: string, income: int, i: nat)
    requires i < |ds|
    ensures UpdateIncome(ds, id, income)[i].id == ds[i].id
    ensures UpdateIncome(ds, id, income)[i].name == ds[i].name
    ensures ds[i].id == id ==> UpdateIncome(ds, id, income)[i].monthlyIncome == income
    ensures ds[i].id != id ==> UpdateIncome(ds, id, income)[i] == ds[i]
  {
    if i > 0 {
      UpdateIncomeAt(ds[1..], id, income, i - 1);
    }
  }

  /** The dependents without the id are untouched as a whole. */
  lemma {:induction false} UpdateAbsentId(ds: seq<Dependent>, id: string, income: int)
    requires forall i :: 0 <= i < |ds| ==> ds[i].id != id
    ensures UpdateIncome(ds, id, income) == ds
  {
    if ds != [] {
      assert ds[0].id != id;
      UpdateAbsentId(ds[1..], id, income);
    }
  }

  /** Editing the same dependent twice keeps only the last income. */
  lemma {:induction false} UpdateOverwrites(ds: seq<Dependent>, id: string, a: int, b: int)
    ensures UpdateIncome(UpdateIncome(ds, id, a), id, b) == UpdateIncome(ds, id, b)
  {
    var l, r := UpdateIncome(UpdateIncome(ds, id, a), id, b), UpdateIncome(ds, id, b);
    forall i | 0 <= i < |ds| ensures l[i] == r[i] {
      UpdateIncomeAt(ds, id, a, i);
      UpdateIncomeAt(UpdateIncome(ds, id, a), id, b, i);
      UpdateIncomeAt(ds, id, b, i);
    }
  }

  /** Edits of two different dependents may be made in either order. */
  lemma {:induction false} UpdatesCommute(ds: seq<Dependent>, id1: string, a: int, id2: string, b: int)
    requires id1 != id2
    ensures UpdateIncome(UpdateIncome(ds, id1, a), id2, b) == UpdateIncome(UpdateIncome(ds, id2, b), id1, a)
  {
    var l, r := UpdateIncome(UpdateIncome(ds, id1, a), id2, b), UpdateIncome(UpdateIncome(ds, id2, b), id1, a);
    forall i | 0 <= i < |ds| ensures l[i] == r[i] {
      UpdateIncomeAt(ds, id1, a, i);
      UpdateIncomeAt(UpdateIncome(ds, id1, a), id2, b, i);
      UpdateIncomeAt(ds, id2, b, i);
      UpdateIncomeAt(UpdateIncome(ds, id2, b), id1, a, i);
    }
  }

  /** The warning follows the edited income: a dependent edited to an
      income above the limit is at risk, one edited to the limit or less is
      not. */
  lemma {:induction false} UpdateRisk(ds: seq<Dependent>, id: string, income: int, i: nat)
    requires i < |ds| && ds[i].id == id
    ensures HasRisk(UpdateIncome(ds, id, income)[i]) <==> income > DependentIncomeLimit
  {
    UpdateIncomeAt(ds, id, income, i);
  }

  /** Adding a dependent: a name that is blank once trimmed adds nothing;
      otherwise the dependent is appended with the name as typed and no
      income. */
  function AddDependent(ds: seq<Dependent>, name: string, newId: string): (r: seq<Dependent>)
    ensures Trim(name) == "" ==> r == ds
    ensures Trim(name) != "" ==> |r| == |ds| + 1 && r[..|ds|] == ds && r[|ds|] == Dependent(newId, name, 0)
  {
    if Trim(name) == "" then ds else ds + [Dependent(newId, name, 0)]
  }

  /** A name made only of whitespace is refused; any other is accepted. */
  lemma {:induction false} AddRefusesBlank(ds: seq<Dependent>, name: string, newId: string)
    ensures AddDependent(ds, name, newId) == ds <==> forall i :: 0 <= i < |name| ==> IsWhitespace(name[i])
  {
    TrimEmptyIffBlank(name);
  }

  /** A name of Unicode spaces only (here an ideographic and an em space)
      is refused as `trim` refuses it. */
  lemma UnicodeBlankRefused(ds: seq<Dependent>, newId: string)
    ensures AddDependent(ds, "\U{3000}\U{2003}", newId) == ds
  {
    AddRefusesBlank(ds, "\U{3000}\U{2003}", newId);
  }

  /** A newly added dependent earns nothing, so it carries no warning, and
      the warnings of the others are as before. */
  lemma {:induction false} AddKeepsRisk(ds: seq<Dependent>, name: string, newId: string)
    ensures AtRisk(AddDependent(ds, name, newId)) == AtRisk(ds)
  {
    if Trim(name) != "" {
      AtRiskSnoc(ds, Dependent(newId, name, 0));
    }
  }

  lemma {:induction false} AtRiskSnoc(ds: seq<Dependent>, d: Dependent)
    ensures AtRisk(ds + [d]) == AtRisk(ds) + (if HasRisk(d) then [d] else [])
  {
    if ds == [] {
      assert [] + [d] == [d];
    } else {
      assert (ds + [d])[1..] == ds[1..] + [d];
      AtRiskSnoc(ds[1..], d);
    }
  }

  /** The two dependents the manager starts with. */
  const InitialDependents: seq<Dependent> := [
    Dependent("1", "Mẹ (Bà Hà)", 4_000_000),
    Dependent("2", "Con (Bé An)", 0)
  ]

  /** The manager's state: the list and the name typed for a new
      dependent. Ids of new dependents come from the clock, so they are
      passed in. */
  class DependentManager {
    var dependents: seq<Dependent>
    var newDependentName: string

    constructor()
      ensures dependents == InitialDependents && newDependentName == ""
    {
      dependents := InitialDependents;
      newDependentName := "";
    }

    method IncomeChange(id: string, income: int)
      modifies this
      ensures dependents == UpdateIncome(old(dependents), id, income)
      ensures newDependentName == old(newDependentName)
    {
      dependents := UpdateIncome(dependents, id, income);
    }

    method NameChange(name: string)
      modifies this
      ensures newDependentName == name && dependents == old(dependents)
    {
      newDependentName := name;
    }

    method Add(newId: string)
      modifies this
      ensures dependents == AddDependent(old(dependents), old(newDependentName), newId)
      ensures newDependentName == if Trim(old(newDependentName)) == "" then old(newDependentName) else ""
    {
      if Trim(newDependentName) == "" {
        return;
      }
      dependents := dependents + [Dependent(newId, newDependentName, 0)];
      newDependentName := "";
    }
  }

  /** Of the starting dependents, the mother earning 4,000,000 a month is
      warned about and the child is not. */
  lemma InitialWarnings()
    ensures AtRisk(InitialDependents) == [InitialDependents[0]]
  {
    var ds := InitialDependents;
    assert ds[1..] == [ds[1]];
    assert ds[1..][1..] == [];
  }
}
