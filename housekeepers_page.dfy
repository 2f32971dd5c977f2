/** The housekeepers page: the list narrowed by a case-insensitive search
    over name and email and by an active/inactive status choice. */
module HousekeepersPage {
  import opened Common
  import opened Text

  /** A housekeeper as this page holds it. The page's records spell the
      fields `user_id`, `contact_number`, `hotel_id` and `is_active`; here
      they are `userId`, `contactNumber`, `hotelId` and `isActive`. */
  datatype Member = Member(id: Id, userId: string, name: string, email: string,
                           contactNumber: string, hotelId: Id, isActive: bool)

  /** The status dropdown. */
  datatype StatusChoice = All | Active | Inactive

  /** The lower-cased name or email includes the lower-cased term. */
  predicate MatchesSearch(m: Member, term: string) {
    Includes(LowerCase(m.name), LowerCase(term)) || Includes(LowerCase(m.email), LowerCase(term))
  }

  /** 'all' passes everyone, 'active' only the active, 'inactive' only the
      inactive. */
  predicate MatchesChoice(m: Member, choice: StatusChoice) {
    choice == All || (choice == Active && m.isActive) || (choice == Inactive && !m.isActive)
  }

  /** filteredHousekeepers: the members passing both tests, in their order;
      an empty search with 'all' keeps the whole list. */
  function FilteredHousekeepers(list: seq<Member>, term: string, choice: StatusChoice): (r: seq<Member>)
    ensures IsSubsequence(r, list)
    ensures forall m :: m in r <==> m in list && MatchesSearch(m, term) && MatchesChoice(m, choice)
    ensures term == "" && choice == All ==> r == list
  {
    var keep := (m: Member) => MatchesSearch(m, term) && MatchesChoice(m, choice);
    if term == "" && choice == All then
      FilterKeepsAll(list, keep);
      Filter(list, keep)
    else Filter(list, keep)
  }

  /** For a given search, 'active' and 'inactive' split what 'all' shows:
      the two counts add up to the count under 'all'. */
  lemma {:induction false} ChoicesPartition(list: seq<Member>, term: string)
    ensures |FilteredHousekeepers(list, term, Active)| + |FilteredHousekeepers(list, term, Inactive)|
            == |FilteredHousekeepers(list, term, All)|
  {
    var active := (m: Member) => MatchesSearch(m, term) && MatchesChoice(m, Active);
    var inactive := (m: Member) => MatchesSearch(m, term) && MatchesChoice(m, Inactive);
    var all := (m: Member) => MatchesSearch(m, term) && MatchesChoice(m, All);
    FilterCounts(list, active, inactive, all);
  }

  /** Two filters whose tests split a third's add up to it. */
  lemma {:induction false} FilterCounts(list: seq<Member>, p: Member -> bool, q: Member -> bool, both: Member -> bool)
    requires forall m :: both(m) <==> p(m) || q(m)
    requires forall m :: !(p(m) && q(m))
    ensures |Filter(list, p)| + |Filter(list, q)| == |Filter(list, both)|
  {
    if list != [] {
      FilterCounts(list[1..], p, q, both);
    }
  }
}
