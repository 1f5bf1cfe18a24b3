/**
 * The admin customers screen: search and tag filtering, the tag filter
 * buttons, and the tag chips and job count shown on each customer card.
 */
module CustomersPage {
  import opened Wrappers
  import opened Text
  import Seqs

  datatype Tag = Tag(id: string, name: string, color: string)

  datatype Customer = Customer(
    id: string, name: string, company: Option<string>, email: Option<string>, phone: Option<string>,
    addressCity: Option<string>, addressState: Option<string>,
    tags: seq<Tag>, jobs: Option<seq<string>>)

  /**
   * The search test: an empty query matches everything; name, company and
   * e-mail are compared lower-cased, the phone number as typed.
   */
  predicate MatchesSearch(c: Customer, searchQuery: string) {
    var q := Lower(searchQuery);
    || searchQuery == ""
    || Includes(Lower(c.name), q)
    || FieldIncludes(c.company, q)
    || FieldIncludes(c.email, q)
    || (c.phone.Some? && Includes(c.phone.value, searchQuery))
  }

  /** `customer.tags.some(t => t.tag.id === tagId)`. */
  predicate HasTag(c: Customer, tagId: string) {
    exists i :: 0 <= i < |c.tags| && c.tags[i].id == tagId
  }

  /** The tag test: no (or an empty) selected tag matches everything, otherwise the customer must carry it. */
  predicate MatchesTag(c: Customer, selectedTag: Option<string>) {
    selectedTag.None? || selectedTag.value == "" || HasTag(c, selectedTag.value)
  }

  function CustomerMatcher(searchQuery: string, selectedTag: Option<string>): Customer -> bool {
    (c: Customer) => MatchesSearch(c, searchQuery) && MatchesTag(c, selectedTag)
  }

  /** `filteredCustomers`: the customers passing both tests, or none while the list is loading. */
  function FilteredCustomers(customers: Option<seq<Customer>>, searchQuery: string, selectedTag: Option<string>): seq<Customer> {
    if customers.None? then [] else Seqs.Filter(CustomerMatcher(searchQuery, selectedTag), customers.value)
  }

  /**
   * The filtered list keeps, in order, exactly the customers that pass both
   * tests; with no search and no tag it is the whole list, and with a tag
   * every customer shown carries it.
   */
  lemma FilteredCustomersSpec(customers: Option<seq<Customer>>, searchQuery: string, selectedTag: Option<string>)
    ensures customers.None? ==> FilteredCustomers(customers, searchQuery, selectedTag) == []
    ensures customers.Some? ==> Seqs.IsSubsequence(FilteredCustomers(customers, searchQuery, selectedTag), customers.value)
    ensures customers.Some? ==> forall c :: c in FilteredCustomers(customers, searchQuery, selectedTag) <==>
              c in customers.value && MatchesSearch(c, searchQuery) && MatchesTag(c, selectedTag)
    ensures customers.Some? && searchQuery == "" && selectedTag.None? ==>
              FilteredCustomers(customers, searchQuery, selectedTag) == customers.value
    ensures selectedTag.Some? && selectedTag.value != "" ==>
              forall c :: c in FilteredCustomers(customers, searchQuery, selectedTag) ==> HasTag(c, selectedTag.value)
  {
    if customers.Some? {
      var keep := CustomerMatcher(searchQuery, selectedTag);
      Seqs.FilterIsSubsequence(keep, customers.value);
      Seqs.FilterMembers(keep, customers.value);
      if searchQuery == "" && selectedTag.None? {
        Seqs.FilterAll(keep, customers.value);
      }
    }
  }

  /** `customer.tags.slice(0, 2)`: the chips on a card. */
  function VisibleTags(c: Customer): (r: seq<Tag>)
    ensures |r| == if |c.tags| < 2 then |c.tags| else 2
    ensures r <= c.tags
    ensures |c.tags| <= 2 ==> r == c.tags
  {
    Seqs.Take(c.tags, 2)
  }

  /** The "+n" chip: how many tags the card leaves out, or none when it shows them all. */
  function OverflowCount(c: Customer): (r: Option<nat>)
    ensures r.None? <==> |c.tags| <= 2
    ensures r.Some? ==> r.value > 0 && |VisibleTags(c)| + r.value == |c.tags|
  {
    if |c.tags| > 2 then Some(|c.tags| - 2) else None
  }
}
