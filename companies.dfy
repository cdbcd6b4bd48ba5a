/**
 * The companies page (src/components/pages/Companies.jsx): the industry
 * drop-down, the client-side filter over the loaded companies, and the page
 * state that delete, view-contacts and back update.
 */
module Companies {
  import opened Wrappers
  import opened Text
  import opened Records
  import Seqs
  import Sorting

  /** `company.industry_c` is truthy: present and not the empty string. */
  predicate HasIndustry(c: Company) {
    c.industry.Some? && c.industry.value != ""
  }

  /** `industry_c.trim()`, with "" for a missing industry. */
  function TrimmedIndustry(c: Company): string {
    if c.industry.Some? then Trim(c.industry.value) else ""
  }

  /** The trimmed industries of the loaded companies that have an industry. */
  function IndustrySet(companies: seq<Company>): set<string> {
    if companies == [] then {}
    else (if HasIndustry(companies[0]) then {TrimmedIndustry(companies[0])} else {}) + IndustrySet(companies[1..])
  }

  /** A string is in the set exactly when some company with an industry trims to it. */
  lemma {:induction false} IndustrySetMeaning(companies: seq<Company>, t: string)
    ensures t in IndustrySet(companies) <==>
      exists j :: 0 <= j < |companies| && HasIndustry(companies[j]) && TrimmedIndustry(companies[j]) == t
  {
    if companies != [] {
      IndustrySetMeaning(companies[1..], t);
      if t in IndustrySet(companies[1..]) {
        var j :| 0 <= j < |companies[1..]| && HasIndustry(companies[1..][j]) && TrimmedIndustry(companies[1..][j]) == t;
        assert companies[j + 1] == companies[1..][j];
      }
      if exists j :: 0 <= j < |companies| && HasIndustry(companies[j]) && TrimmedIndustry(companies[j]) == t {
        var j :| 0 <= j < |companies| && HasIndustry(companies[j]) && TrimmedIndustry(companies[j]) == t;
        if j > 0 {
          assert companies[1..][j - 1] == companies[j];
        }
      }
    }
  }

  /**
   * The chain before the de-duplication: the trimmed industry of every company
   * that has one, with those that trim to nothing dropped, in company order.
   */
  function TrimmedIndustries(companies: seq<Company>): (r: seq<string>)
    ensures forall i :: 0 <= i < |r| ==> r[i] != "" && r[i] in IndustrySet(companies)
    ensures forall j :: 0 <= j < |companies| && TrimmedIndustry(companies[j]) != "" ==> TrimmedIndustry(companies[j]) in r
  {
    if companies == [] then []
    else
      var c := companies[0];
      var rest := TrimmedIndustries(companies[1..]);
      assert Trim("") == "";
      assert forall j :: 1 <= j < |companies| ==> companies[j] == companies[1..][j - 1];
      if TrimmedIndustry(c) != "" then
        var r := [TrimmedIndustry(c)] + rest;
        assert forall i :: 1 <= i < |r| ==> r[i] == rest[i - 1];
        r
      else
        rest
  }

  function IndustryKey(industry: string): Sorting.SortKey {
    Sorting.StrKey(industry)
  }

  /** Strictly increasing in code-unit order: sorted and without repetitions. */
  predicate StrictlyAscending(s: seq<string>) {
    forall i, j :: 0 <= i < j < |s| ==> Sorting.StrLe(s[i], s[j]) && s[i] != s[j]
  }

  /**
   * `getUniqueIndustries`: the distinct trimmed industries in ascending order
   * (`.sort()` with no comparator), each one an industry some company carries
   * and every non-blank industry among them.
   */
  method UniqueIndustries(companies: seq<Company>) returns (r: seq<string>)
    ensures StrictlyAscending(r)
    ensures forall i :: 0 <= i < |r| ==> r[i] != "" && r[i] in IndustrySet(companies)
    ensures forall j :: 0 <= j < |companies| && TrimmedIndustry(companies[j]) != "" ==> TrimmedIndustry(companies[j]) in r
  {
    var industries := TrimmedIndustries(companies);
    var unique := Seqs.Dedup(industries);
    r := Sorting.SortedCopy(unique, IndustryKey, Sorting.Asc);
    Seqs.PermutationKeepsDistinct(unique, r);
    assert forall x :: x in r <==> x in unique by {
      forall x
        ensures x in r <==> x in unique
      {
        assert x in r <==> x in multiset(r);
        assert x in unique <==> x in multiset(unique);
      }
    }
    forall i | 0 <= i < |r|
      ensures r[i] != "" && r[i] in IndustrySet(companies)
    {
      assert r[i] in unique;
      var k :| 0 <= k < |industries| && industries[k] == r[i];
    }
    forall i, j | 0 <= i < j < |r|
      ensures Sorting.StrLe(r[i], r[j]) && r[i] != r[j]
    {
      assert Sorting.InOrder(IndustryKey(r[i]), IndustryKey(r[j]), Sorting.Asc);
    }
  }

  /** `field?.toLowerCase().includes(term.toLowerCase())`: a missing field matches nothing. */
  predicate FieldContains(field: Option<string>, term: string) {
    field.Some? && Contains(Lower(field.value), Lower(term))
  }

  predicate MatchesSearch(c: Company, searchTerm: string) {
    searchTerm == "" || FieldContains(c.name, searchTerm) || FieldContains(c.industry, searchTerm)
  }

  predicate MatchesIndustry(c: Company, selectedIndustry: string) {
    selectedIndustry == "" || FieldContains(c.industry, selectedIndustry)
  }

  predicate Keeps(c: Company, searchTerm: string, selectedIndustry: string) {
    MatchesSearch(c, searchTerm) && MatchesIndustry(c, selectedIndustry)
  }

  /** `filteredCompanies`: the loaded companies that pass both the search and the industry test, in order. */
  function FilteredCompanies(companies: seq<Company>, searchTerm: string, selectedIndustry: string): (r: seq<Company>)
    ensures Seqs.IsSubsequence(r, companies)
    ensures forall i :: 0 <= i < |r| ==> Keeps(r[i], searchTerm, selectedIndustry)
    ensures forall i :: 0 <= i < |companies| && Keeps(companies[i], searchTerm, selectedIndustry) ==> companies[i] in r
  {
    var keep := (c: Company) => Keeps(c, searchTerm, selectedIndustry);
    Seqs.FilterIsSubsequence(companies, keep);
    Seqs.Filter(companies, keep)
  }

  /** With no search term and no industry chosen every loaded company is shown. */
  lemma NoFilterShowsAll(companies: seq<Company>)
    ensures FilteredCompanies(companies, "", "") == companies
  {
    Seqs.FilterAll(companies, (c: Company) => Keeps(c, "", ""));
  }

  /**
   * Choosing an industry from the drop-down (with no search term) never hides a
   * company whose trimmed industry is that option.
   */
  lemma IndustryOptionShowsItsCompanies(companies: seq<Company>, j: nat)
    requires j < |companies| && companies[j].industry.Some?
    ensures companies[j] in FilteredCompanies(companies, "", Trim(companies[j].industry.value))
  {
    var industry := companies[j].industry.value;
    TrimIsContained(industry);
    LowerKeepsContains(industry, Trim(industry));
  }

  /** `prev.filter(c => c.Id !== company.Id)`: every entry with that id goes, the rest stay in order. */
  function RemoveCompany(companies: seq<Company>, id: nat): (r: seq<Company>)
    ensures Seqs.IsSubsequence(r, companies)
    ensures forall i :: 0 <= i < |r| ==> r[i].id != id
    ensures forall i :: 0 <= i < |companies| && companies[i].id != id ==> companies[i] in r
  {
    Seqs.FilterIsSubsequence(companies, (c: Company) => c.id != id);
    Seqs.Filter(companies, (c: Company) => c.id != id)
  }

  /**
   * The page state the handlers update: the loaded list, `selectedCompany`
   * (`None` is `null`) and `showContacts`.
   */
  class CompaniesPage {
    var companies: seq<Company>
    var selected: Option<Company>
    var showContacts: bool

    constructor ()
      ensures companies == [] && selected == None && !showContacts
    {
      companies := [];
      selected := None;
      showContacts := false;
    }

    /**
     * `handleDeleteCompany`, after the confirmation (`confirmed`) and the
     * service's answer (`success`): only a confirmed, successful delete changes
     * anything; it drops the company and, when it was the selected one, clears
     * the selection and hides the contacts.
     */
    method HandleDeleteCompany(company: Company, confirmed: bool, success: bool)
      modifies this
      ensures confirmed && success ==> companies == RemoveCompany(old(companies), company.id)
      ensures !(confirmed && success) ==> companies == old(companies)
      ensures confirmed && success && old(selected).Some? && old(selected).value.id == company.id ==>
        selected == None && !showContacts
      ensures !(confirmed && success && old(selected).Some? && old(selected).value.id == company.id) ==>
        selected == old(selected) && showContacts == old(showContacts)
    {
      if confirmed && success {
        companies := RemoveCompany(companies, company.id);
        if selected.Some? && selected.value.id == company.id {
          selected := None;
          showContacts := false;
        }
      }
    }

    method HandleViewContacts(company: Company)
      modifies this
      ensures selected == Some(company) && showContacts
      ensures companies == old(companies)
    {
      selected := Some(company);
      showContacts := true;
    }

    method HandleBackToCompanies()
      modifies this
      ensures selected == None && !showContacts
      ensures companies == old(companies)
    {
      selected := None;
      showContacts := false;
    }

    /** The contacts view is rendered only with a company selected (`showContacts && selectedCompany`). */
    predicate ShowsContactsView()
      reads this
    {
      showContacts && selected.Some?
    }
  }

  /** Viewing a company's contacts and going back returns to the list with nothing selected. */
  method ViewThenBack(page: CompaniesPage, company: Company)
    modifies page
    ensures !page.ShowsContactsView() && page.selected == None
    ensures page.companies == old(page.companies)
  {
    page.HandleViewContacts(company);
    assert page.ShowsContactsView();
    page.HandleBackToCompanies();
  }
}
