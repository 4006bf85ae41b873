/**
 * The expandable categories of src/components/dashboard/PolicyList.tsx:
 * the list of expanded category names, its toggle, and whether a
 * category's policies are listed.  The static policy texts are not part of
 * this model; a category's policies are a parameter.
 */
module PolicyList {

  /** `prev.filter(c => c !== category)` */
  function Without(s: seq<string>, category: string): (r: seq<string>)
    ensures category !in r
    ensures forall x :: x != category ==> (x in r <==> x in s)
    ensures |r| <= |s|
    ensures multiset(r) == multiset(s)[category := 0]
    decreases |s|
  {
    if s == [] then []
    else
      assert s == [s[0]] + s[1..];
      if s[0] == category then Without(s[1..], category)
      else [s[0]] + Without(s[1..], category)
  }

  /** `prev.includes(category) ? prev.filter(c => c !== category) : [...prev, category]` */
  function Toggle(s: seq<string>, category: string): (r: seq<string>)
    ensures category in r <==> category !in s
    ensures forall x :: x != category ==> (x in r <==> x in s)
  {
    if category in s then Without(s, category) else s + [category]
  }

  /** The list has every name at most once. */
  predicate NoDuplicates(s: seq<string>) {
    forall i, j :: 0 <= i < j < |s| ==> s[i] != s[j]
  }

  lemma {:induction false} WithoutAppend(s: seq<string>, t: seq<string>, category: string)
    ensures Without(s + t, category) == Without(s, category) + Without(t, category)
    decreases |s|
  {
    if s == [] {
      assert s + t == t;
    } else {
      assert (s + t)[1..] == s[1..] + t;
      WithoutAppend(s[1..], t, category);
    }
  }

  lemma {:induction false} WithoutAbsent(s: seq<string>, category: string)
    requires category !in s
    ensures Without(s, category) == s
    decreases |s|
  {
    if s != [] {
      WithoutAbsent(s[1..], category);
    }
  }

  lemma {:induction false} WithoutKeepsNoDuplicates(s: seq<string>, category: string)
    requires NoDuplicates(s)
    ensures NoDuplicates(Without(s, category))
    decreases |s|
  {
    if s != [] {
      assert NoDuplicates(s[1..]) by {
        forall i, j | 0 <= i < j < |s[1..]| ensures s[1..][i] != s[1..][j] {
          assert s[1..][i] == s[i + 1] && s[1..][j] == s[j + 1];
        }
      }
      WithoutKeepsNoDuplicates(s[1..], category);
      if s[0] != category {
        var r := Without(s[1..], category);
        assert s[0] !in s[1..] by {
          forall k | 0 <= k < |s[1..]| ensures s[1..][k] != s[0] {
            assert s[1..][k] == s[k + 1];
          }
        }
        assert s[0] !in r;
        var t := [s[0]] + r;
        forall i, j | 0 <= i < j < |t| ensures t[i] != t[j] {
          if i == 0 {
            assert t[j] == r[j - 1];
          } else {
            assert t[i] == r[i - 1] && t[j] == r[j - 1];
          }
        }
      }
    }
  }

  /** Toggling an absent category expands it by appending it at the end. */
  lemma ToggleAbsent(s: seq<string>, category: string)
    requires category !in s
    ensures Toggle(s, category) == s + [category]
    ensures category in Toggle(s, category)
  {
  }

  /** Toggling a present category removes every occurrence of it. */
  lemma TogglePresent(s: seq<string>, category: string)
    requires category in s
    ensures category !in Toggle(s, category)
    ensures |Toggle(s, category)| < |s|
  {
    WithoutShorter(s, category);
  }

  lemma {:induction false} WithoutShorter(s: seq<string>, category: string)
    requires category in s
    ensures |Without(s, category)| < |s|
    decreases |s|
  {
    if s[0] != category {
      WithoutShorter(s[1..], category);
    }
  }

  /** A category is expanded after a toggle exactly when it was not before. */
  lemma ToggleFlips(s: seq<string>, category: string)
    ensures category in Toggle(s, category) <==> category !in s
  {
  }

  /**
   * Every other category keeps its membership and its relative order:
   * once the toggled name is taken out, the list before and after a
   * toggle is the same.
   */
  lemma ToggleKeepsOthers(s: seq<string>, category: string)
    ensures Without(Toggle(s, category), category) == Without(s, category)
    ensures forall x :: x != category ==> (x in Toggle(s, category) <==> x in s)
  {
    if category !in s {
      WithoutAppend(s, [category], category);
      assert Without([category], category) == [];
      assert s + [category] == Toggle(s, category);
    } else {
      WithoutAbsent(Without(s, category), category);
    }
  }

  /** Toggling an absent category twice gives back the original list. */
  lemma ToggleTwiceAbsent(s: seq<string>, category: string)
    requires category !in s
    ensures Toggle(Toggle(s, category), category) == s
  {
    WithoutAppend(s, [category], category);
    WithoutAbsent(s, category);
    assert Without([category], category) == [];
  }

  /** A toggle keeps a duplicate-free list duplicate-free. */
  lemma ToggleKeepsNoDuplicates(s: seq<string>, category: string)
    requires NoDuplicates(s)
    ensures NoDuplicates(Toggle(s, category))
  {
    if category in s {
      WithoutKeepsNoDuplicates(s, category);
    } else {
      var t := s + [category];
      forall i, j | 0 <= i < j < |t| ensures t[i] != t[j] {
        if j == |s| {
          assert t[i] == s[i];
        }
      }
    }
  }

  /** How a category is drawn: the chevron, and the policy list shown beneath it (P stands for a policy). */
  datatype CategoryView<P> = CategoryView(chevronDown: bool, listed: seq<P>, open: bool)

  function ViewCategory<P>(expanded: seq<string>, category: string, policies: seq<P>): (v: CategoryView<P>)
    ensures v.open <==> category in expanded
    ensures v.chevronDown == v.open
    ensures v.listed == if v.open then policies else []
  {
    var open := category in expanded;
    CategoryView(open, if open then policies else [], open)
  }

  /** The initial expanded list. */
  const InitiallyExpanded: seq<string> := ["HR Policies"]

  class PolicyList {
    var expandedCategories: seq<string>

    /** No category is listed twice; every toggle keeps this. */
    ghost predicate Valid()
      reads this
    {
      NoDuplicates(expandedCategories)
    }

    constructor ()
      ensures Valid() && expandedCategories == InitiallyExpanded
    {
      expandedCategories := ["HR Policies"];
    }

    /** `expandedCategories.includes(category)` */
    predicate IsExpanded(category: string)
      reads this
    {
      category in expandedCategories
    }

    /** toggleCategory: replaces the list by its toggle. */
    method ToggleCategory(category: string)
      requires Valid()
      modifies this
      ensures Valid()
      ensures expandedCategories == Toggle(old(expandedCategories), category)
      ensures IsExpanded(category) <==> !old(IsExpanded(category))
    {
      ToggleKeepsNoDuplicates(expandedCategories, category);
      if category in expandedCategories {
        expandedCategories := Without(expandedCategories, category);
      } else {
        expandedCategories := expandedCategories + [category];
      }
    }
  }
}
