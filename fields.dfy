/**
 * The field record the bean renderer reads (PythonField), and the order
 * its comparator puts constructor parameters in.
 */
module Fields {
  import opened Wrappers

  /**
   * One bean member: its attribute name, its wire (JSON) name, the
   * runtime type expression used in the `_fields` registry, the type
   * annotation used in signatures, optional documentation, optionality.
   */
  datatype PythonField = PythonField(
    attributeName: string,
    jsonIdentifier: string,
    pythonType: string,
    myPyType: string,
    docs: Option<string>,
    isOptional: bool)

  /** The fields of `fs` whose optionality is `optional`, in their order in `fs`. */
  function Tier(fs: seq<PythonField>, optional: bool): (r: seq<PythonField>)
    ensures |r| <= |fs|
    ensures forall k :: 0 <= k < |r| ==> r[k].isOptional == optional && r[k] in fs
  {
    if fs == [] then []
    else (if fs[0].isOptional == optional then [fs[0]] else []) + Tier(fs[1..], optional)
  }

  lemma {:induction false} TierAppend(a: seq<PythonField>, b: seq<PythonField>, optional: bool)
    ensures Tier(a + b, optional) == Tier(a, optional) + Tier(b, optional)
    decreases |a|
  {
    if a != [] {
      assert (a + b)[1..] == a[1..] + b;
      TierAppend(a[1..], b, optional);
    } else {
      assert a + b == b;
    }
  }

  /** Together the two tiers hold every field exactly as often as `fs` does. */
  lemma {:induction false} TiersPartition(fs: seq<PythonField>)
    ensures multiset(Tier(fs, false)) + multiset(Tier(fs, true)) == multiset(fs)
    decreases |fs|
  {
    if fs != [] {
      TiersPartition(fs[1..]);
      assert fs == [fs[0]] + fs[1..];
    }
  }

  /** Picking a tier out of a tier of the same optionality changes nothing. */
  lemma {:induction false} TierOfTier(fs: seq<PythonField>, optional: bool)
    ensures Tier(Tier(fs, optional), optional) == Tier(fs, optional)
    ensures Tier(Tier(fs, optional), !optional) == []
    decreases |fs|
  {
    if fs != [] {
      var head := if fs[0].isOptional == optional then [fs[0]] else [];
      TierOfTier(fs[1..], optional);
      TierAppend(head, Tier(fs[1..], optional), optional);
      TierAppend(head, Tier(fs[1..], optional), !optional);
    }
  }

  /**
   * The order `sorted(new PythonFieldComparator())` gives: required
   * fields before optional ones, a stable sort, so fields of the same
   * optionality keep their declared order.
   */
  function SortByComparator(fs: seq<PythonField>): seq<PythonField>
  {
    Tier(fs, false) + Tier(fs, true)
  }

  /** The comparator order holds every field exactly as often as the declared order does. */
  lemma SortByComparatorPermutes(fs: seq<PythonField>)
    ensures multiset(SortByComparator(fs)) == multiset(fs)
  {
    TiersPartition(fs);
  }

  /** In the comparator order no optional field comes before a required one. */
  lemma SortByComparatorRequiredFirst(fs: seq<PythonField>)
    ensures forall i, j :: 0 <= i < j < |SortByComparator(fs)| && SortByComparator(fs)[i].isOptional ==>
              SortByComparator(fs)[j].isOptional
  {
    var required: seq<PythonField> := Tier(fs, false);
    var optional: seq<PythonField> := Tier(fs, true);
    forall i, j | 0 <= i < j < |required + optional| && (required + optional)[i].isOptional
      ensures (required + optional)[j].isOptional
    {
      assert (required + optional)[j] == optional[j - |required|];
    }
  }

  /** Fields of the same optionality keep their declared order. */
  lemma SortByComparatorKeepsTiers(fs: seq<PythonField>)
    ensures Tier(SortByComparator(fs), false) == Tier(fs, false)
    ensures Tier(SortByComparator(fs), true) == Tier(fs, true)
  {
    var required, optional := Tier(fs, false), Tier(fs, true);
    TierAppend(required, optional, false);
    TierAppend(required, optional, true);
    TierOfTier(fs, false);
    TierOfTier(fs, true);
  }

  /**
   * SortByComparator is a stable sort by optionality: it rearranges the
   * fields, puts no optional field before a required one, and keeps the
   * declared order within each of the two groups.
   */
  lemma SortByComparatorIsStableSort(fs: seq<PythonField>)
    ensures multiset(SortByComparator(fs)) == multiset(fs)
    ensures forall i, j :: 0 <= i < j < |SortByComparator(fs)| && SortByComparator(fs)[i].isOptional ==>
              SortByComparator(fs)[j].isOptional
    ensures Tier(SortByComparator(fs), false) == Tier(fs, false)
    ensures Tier(SortByComparator(fs), true) == Tier(fs, true)
  {
    SortByComparatorPermutes(fs);
    SortByComparatorRequiredFirst(fs);
    SortByComparatorKeepsTiers(fs);
  }
}
