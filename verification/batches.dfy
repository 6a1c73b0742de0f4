/**
 * The batch list of the web front end: the status and role tables, the search and status
 * filters, and the sort by key. Batches come from the supply-chain contract; only the parts
 * the list reads are modelled.
 */
module Batches {
  import opened Values
  import opened Strings
  import opened Seqs

  // ---------------------------------------------------------------- batches

  /** The text fields of a batch's physical asset the search reads; None when a field is missing. */
  datatype PhysicalAsset = PhysicalAsset(assetId: Option<string>, material: Option<string>, batchNumber: Option<string>)

  /** The text fields of a batch's tracer the search reads. */
  datatype Tracer = Tracer(supplier: Option<string>, country: Option<string>)

  /** A batch as the list shows it: its status code and creation time are numbers. */
  datatype Batch = Batch(physicalAsset: PhysicalAsset, tracer: Tracer, status: int, createdAt: int)

  // ---------------------------------------------------------------- status and role tables

  /** The statuses of the contract, with the codes of the STATUS table. */
  datatype Status = Pending | Approved | Rejected | Certified

  function StatusCode(s: Status): int {
    match s
    case Pending => 0
    case Approved => 1
    case Rejected => 2
    case Certified => 3
  }

  /** The status a code stands for, if any. */
  function StatusOf(code: int): (s: Option<Status>)
    ensures s.Some? <==> 0 <= code <= 3
    ensures s.Some? ==> StatusCode(s.value) == code
  {
    match code
    case 0 => Some(Pending)
    case 1 => Some(Approved)
    case 2 => Some(Rejected)
    case 3 => Some(Certified)
    case _ => None
  }

  /** Each status has its own code. */
  lemma StatusCodeRoundTrip(s: Status)
    ensures StatusOf(StatusCode(s)) == Some(s)
  {
  }

  const StatusLabels: map<int, string> := map[0 := "Pending", 1 := "Approved", 2 := "Rejected", 3 := "Certified"]

  const StatusColors: map<int, string> := map[0 := "#FFA500", 1 := "#4CAF50", 2 := "#F44336", 3 := "#2196F3"]

  /** `table[key] || fallback` on a table of strings: a missing entry or an empty one gives the fallback. */
  function LookupOr(table: map<int, string>, key: int, fallback: string): string {
    if key in table && table[key] != "" then table[key] else fallback
  }

  /** The label getStatusBadge shows for a status code. */
  function StatusLabel(status: int): (text: string)
    ensures text != "Unknown" <==> StatusOf(status).Some?
  {
    LookupOr(StatusLabels, status, "Unknown")
  }

  /** The badge colour getStatusBadge uses for a status code. */
  function StatusColor(status: int): (color: string)
    ensures color != "#999" <==> StatusOf(status).Some?
  {
    LookupOr(StatusColors, status, "#999")
  }

  /** The label of a status is its name. */
  lemma StatusLabelNames()
    ensures StatusLabel(StatusCode(Pending)) == "Pending"
    ensures StatusLabel(StatusCode(Approved)) == "Approved"
    ensures StatusLabel(StatusCode(Rejected)) == "Rejected"
    ensures StatusLabel(StatusCode(Certified)) == "Certified"
  {
  }

  /** Distinct statuses are shown with distinct labels and distinct colours. */
  lemma StatusLabelsDistinct(s: Status, t: Status)
    requires s != t
    ensures StatusLabel(StatusCode(s)) != StatusLabel(StatusCode(t))
    ensures StatusColor(StatusCode(s)) != StatusColor(StatusCode(t))
  {
  }

  /** The roles of the contract, with the codes of the ROLE table. */
  datatype Role = Producer | Manufacturer | Distributor | Certifier | Admin

  function RoleCode(r: Role): int {
    match r
    case Producer => 0
    case Manufacturer => 1
    case Distributor => 2
    case Certifier => 3
    case Admin => 4
  }

  const RoleLabels: map<int, string> := map[0 := "Producer", 1 := "Manufacturer", 2 := "Distributor", 3 := "Certifier", 4 := "Admin"]

  /** `ROLE_LABELS[code]`: None for a code the table does not list. */
  function RoleLabel(code: int): (name: Option<string>)
    ensures name.Some? <==> 0 <= code <= 4
  {
    if code in RoleLabels then Some(RoleLabels[code]) else None
  }

  /** Every role is labelled with its name, and distinct roles with distinct labels. */
  lemma RoleLabelNames(r: Role, q: Role)
    ensures RoleLabel(RoleCode(r)) == Some(match r
      case Producer => "Producer"
      case Manufacturer => "Manufacturer"
      case Distributor => "Distributor"
      case Certifier => "Certifier"
      case Admin => "Admin")
    ensures r != q ==> RoleLabel(RoleCode(r)) != RoleLabel(RoleCode(q))
  {
  }

  // ---------------------------------------------------------------- search filter

  /** `value?.toLowerCase().includes(term)`: a missing value never matches. */
  predicate FieldMatches(field: Option<string>, term: string) {
    field.Some? && Includes(ToLower(field.value), term)
  }

  /** The filter callback of filterBatchesBySearch for an already lower-cased term. */
  predicate MatchesTerm(b: Batch, term: string) {
    || FieldMatches(b.physicalAsset.assetId, term)
    || FieldMatches(b.physicalAsset.material, term)
    || FieldMatches(b.physicalAsset.batchNumber, term)
    || FieldMatches(b.tracer.supplier, term)
    || FieldMatches(b.tracer.country, term)
  }

  function SearchHit(term: string): Batch -> bool {
    b => MatchesTerm(b, term)
  }

  /**
   * `filterBatchesBySearch(batches, searchTerm)`; None stands for an absent term. An empty
   * or absent term keeps the list as it is; otherwise the batches some field of which
   * contains the term, ignoring case, are kept in order.
   */
  function FilterBySearch(batches: seq<Batch>, searchTerm: Option<string>): (r: seq<Batch>)
    ensures searchTerm.None? || searchTerm.value == "" ==> r == batches
    ensures searchTerm.Some? && searchTerm.value != "" ==>
      forall b :: b in r <==> b in batches && MatchesTerm(b, ToLower(searchTerm.value))
  {
    if searchTerm.None? || searchTerm.value == "" then batches
    else Filter(batches, SearchHit(ToLower(searchTerm.value)))
  }

  /** The term occurs, ignoring case, at some position of the field's text. */
  ghost predicate Occurs(field: Option<string>, term: string) {
    field.Some? && exists i :: OccursAt(ToLower(field.value), ToLower(term), i)
  }

  /** The term occurs, ignoring case, in the asset id, material, batch number, supplier or country. */
  ghost predicate Mentions(b: Batch, term: string) {
    || Occurs(b.physicalAsset.assetId, term)
    || Occurs(b.physicalAsset.material, term)
    || Occurs(b.physicalAsset.batchNumber, term)
    || Occurs(b.tracer.supplier, term)
    || Occurs(b.tracer.country, term)
  }

  lemma FieldMatchesIffOccurs(field: Option<string>, term: string)
    ensures FieldMatches(field, ToLower(term)) <==> Occurs(field, term)
  {
    if field.Some? {
      var lowered := ToLower(field.value);
      IncludesIffOccurs(lowered, ToLower(term));
      if Includes(lowered, ToLower(term)) {
        var i :| OccursAt(lowered, ToLower(term), i);
        assert FieldMatches(field, ToLower(term));
      }
    }
  }

  /** A batch passes the search callback exactly when the term occurs in one of its searched fields. */
  lemma MatchesTermIffMentions(b: Batch, term: string)
    ensures MatchesTerm(b, ToLower(term)) <==> Mentions(b, term)
  {
    FieldMatchesIffOccurs(b.physicalAsset.assetId, term);
    FieldMatchesIffOccurs(b.physicalAsset.material, term);
    FieldMatchesIffOccurs(b.physicalAsset.batchNumber, term);
    FieldMatchesIffOccurs(b.tracer.supplier, term);
    FieldMatchesIffOccurs(b.tracer.country, term);
  }

  /** The search keeps every copy of a matching batch and no copy of any other. */
  lemma FilterBySearchMultiplicity(batches: seq<Batch>, term: string)
    requires term != ""
    ensures forall b :: (multiset(FilterBySearch(batches, Some(term)))[b]
                         == if Mentions(b, term) then multiset(batches)[b] else 0)
  {
    FilterMultiplicity(batches, SearchHit(ToLower(term)));
    forall b ensures MatchesTerm(b, ToLower(term)) <==> Mentions(b, term) {
      MatchesTermIffMentions(b, term);
    }
  }

  /** The search keeps the order of the list. */
  lemma FilterBySearchIsSubsequence(batches: seq<Batch>, searchTerm: Option<string>)
    ensures IsSubsequence(FilterBySearch(batches, searchTerm), batches)
  {
    if searchTerm.None? || searchTerm.value == "" {
      FilterIsSubsequence(batches, _ => true);
      FilterKeepsAll(batches, _ => true);
    } else {
      FilterIsSubsequence(batches, SearchHit(ToLower(searchTerm.value)));
    }
  }

  /** Searching the result again with the same term changes nothing. */
  lemma FilterBySearchIdempotent(batches: seq<Batch>, searchTerm: Option<string>)
    ensures FilterBySearch(FilterBySearch(batches, searchTerm), searchTerm) == FilterBySearch(batches, searchTerm)
  {
    if searchTerm.Some? && searchTerm.value != "" {
      FilterIdempotent(batches, SearchHit(ToLower(searchTerm.value)));
    }
  }

  /** The search ignores the case of the term. */
  lemma FilterBySearchIgnoresCase(batches: seq<Batch>, term: string)
    ensures FilterBySearch(batches, Some(ToLower(term))) == FilterBySearch(batches, Some(term))
  {
    ToLowerIdempotent(term);
  }

  /** A field that lower-cases to the same text as the term matches the lower-cased term. */
  lemma SameLowerCaseMatches(field: string, term: string)
    requires ToLower(field) == ToLower(term)
    ensures FieldMatches(Some(field), ToLower(term))
  {
    assert StartsWith(ToLower(field), ToLower(term));
  }

  /** A batch whose supplier differs from a non-empty term only in case is kept by the search. */
  lemma FilterBySearchKeepsSameCaseSupplier(batches: seq<Batch>, b: Batch, term: string)
    requires term != "" && b in batches
    requires b.tracer.supplier.Some? && ToLower(b.tracer.supplier.value) == ToLower(term)
    ensures b in FilterBySearch(batches, Some(term))
  {
    SameLowerCaseMatches(b.tracer.supplier.value, term);
    assert MatchesTerm(b, ToLower(term));
  }

  /** A field in capitals matches its lower-case text beyond ASCII: "ÖSTERREICH" includes "österreich". */
  lemma NonAsciiFieldMatches(upper: string, lower: string)
    requires upper == "ÖSTERREICH" && lower == "österreich"
    ensures FieldMatches(Some(upper), ToLower(lower))
  {
    ToLowerPointwise(upper, lower);
    ToLowerPointwise(lower, lower);
    SameLowerCaseMatches(upper, lower);
  }

  /** Case is ignored beyond ASCII: a batch whose country is in capitals is found by the lower-case name. */
  lemma FilterBySearchNonAsciiCase(b: Batch, term: string)
    requires b.tracer.country == Some("ÖSTERREICH") && term == "österreich"
    ensures FilterBySearch([b], Some(term)) == [b]
  {
    NonAsciiFieldMatches(b.tracer.country.value, term);
    assert MatchesTerm(b, ToLower(term));
    assert [b][1..] == [];
  }

  /** Accented Greek capitals are lower-cased: a supplier "Ήπειρος" is found by "ήπειρος". */
  lemma FilterBySearchGreekAccentCase(b: Batch, term: string)
    requires b.tracer.supplier == Some("Ήπειρος") && term == "ήπειρος"
    ensures b in FilterBySearch([b], Some(term))
  {
    ToLowerPointwise(b.tracer.supplier.value, term);
    ToLowerPointwise(term, term);
    FilterBySearchKeepsSameCaseSupplier([b], b, term);
  }

  // ---------------------------------------------------------------- status filter

  /** The filter callback of filterBatchesByStatus: `batch.status === code`, never true for NaN (None). */
  function StatusIs(code: Option<int>): Batch -> bool {
    (b: Batch) => code == Some(b.status)
  }

  /**
   * `filterBatchesByStatus(batches, status)`; None stands for undefined. An empty or absent
   * status keeps the list as it is; otherwise the batches whose status is the parsed code
   * are kept in order.
   */
  function FilterByStatus(batches: seq<Batch>, status: Option<string>): (r: seq<Batch>)
    ensures status.None? || status.value == "" ==> r == batches
    ensures status.Some? && status.value != "" ==>
      forall b :: b in r <==> b in batches && ParseInt(status.value) == Some(b.status)
  {
    if status.None? || status.value == "" then batches
    else Filter(batches, StatusIs(ParseInt(status.value)))
  }

  /** Filtering by the text of a code keeps exactly the copies of the batches with that status. */
  lemma FilterByStatusCode(batches: seq<Batch>, code: int)
    ensures forall b :: (multiset(FilterByStatus(batches, Some(IntToString(code))))[b]
                         == if b.status == code then multiset(batches)[b] else 0)
  {
    ParseIntOfIntToString(code);
    FilterMultiplicity(batches, StatusIs(Some(code)));
  }

  /** A status text that is not a number keeps nothing. */
  lemma FilterByStatusNotANumber(batches: seq<Batch>, status: string)
    requires status != "" && ParseInt(status).None?
    ensures FilterByStatus(batches, Some(status)) == []
  {
  }

  /** The status filter keeps the order of the list. */
  lemma FilterByStatusIsSubsequence(batches: seq<Batch>, status: Option<string>)
    ensures IsSubsequence(FilterByStatus(batches, status), batches)
  {
    if status.None? || status.value == "" {
      FilterIsSubsequence(batches, _ => true);
      FilterKeepsAll(batches, _ => true);
    } else {
      FilterIsSubsequence(batches, StatusIs(ParseInt(status.value)));
    }
  }

  /** Filtering the result again by the same status changes nothing. */
  lemma FilterByStatusIdempotent(batches: seq<Batch>, status: Option<string>)
    ensures FilterByStatus(FilterByStatus(batches, status), status) == FilterByStatus(batches, status)
  {
    if status.Some? && status.value != "" {
      FilterIdempotent(batches, StatusIs(ParseInt(status.value)));
    }
  }

  /** The two filters may be applied in either order. */
  lemma FiltersCommute(batches: seq<Batch>, searchTerm: Option<string>, status: Option<string>)
    ensures FilterBySearch(FilterByStatus(batches, status), searchTerm)
         == FilterByStatus(FilterBySearch(batches, searchTerm), status)
  {
    if searchTerm.Some? && searchTerm.value != "" && status.Some? && status.value != "" {
      var p := SearchHit(ToLower(searchTerm.value));
      var q := StatusIs(ParseInt(status.value));
      FilterComposed(batches, q, p);
      FilterComposed(batches, p, q);
      FilterCongruent(batches, Both(q, p), Both(p, q));
    }
  }

  // ---------------------------------------------------------------- sort

  /** The three orders sortBatches knows, besides the assetId order. */
  datatype Order = Newest | Oldest | ByStatus

  /** The order a sortBy value selects; None for a value the switch does not list. */
  function OrderOf(sortBy: string): (order: Option<Order>)
    requires sortBy != "assetId"
    ensures order.None? <==> sortBy !in {"newest", "oldest", "status"}
  {
    if sortBy == "newest" then Some(Newest)
    else if sortBy == "oldest" then Some(Oldest)
    else if sortBy == "status" then Some(ByStatus)
    else None
  }

  /** The number each order sorts by, ascending. */
  function Key(order: Order, b: Batch): int {
    match order
    case Newest => -b.createdAt
    case Oldest => b.createdAt
    case ByStatus => b.status
  }

  /** The comparator sortBatches passes to sort: it is the difference of the order's keys. */
  function Compare(order: Order, a: Batch, b: Batch): (c: int)
    ensures c == Key(order, a) - Key(order, b)
  {
    match order
    case Newest => b.createdAt - a.createdAt
    case Oldest => a.createdAt - b.createdAt
    case ByStatus => a.status - b.status
  }

  /** s is in ascending order of the key. */
  predicate Sorted(s: seq<Batch>, order: Order) {
    forall i, j :: 0 <= i < j < |s| ==> Key(order, s[i]) <= Key(order, s[j])
  }

  /**
   * The state of one insertion step: the element being inserted sits at j, the first i + 1
   * elements other than it are in order, and it is in order with everything after it.
   */
  predicate Inserting(s: seq<Batch>, i: int, j: int, order: Order) {
    && 0 <= j <= i < |s|
    && (forall p, q :: 0 <= p < q <= i && p != j && q != j ==> Key(order, s[p]) <= Key(order, s[q]))
    && (forall q :: j < q <= i ==> Key(order, s[j]) <= Key(order, s[q]))
  }

  lemma InsertingStart(s: seq<Batch>, i: int, order: Order)
    requires 0 <= i < |s| && Sorted(s[..i], order)
    ensures Inserting(s, i, i, order)
  {
    assert forall p :: 0 <= p < i ==> s[..i][p] == s[p];
  }

  /** Exchanging the inserted element with a greater one to its left moves it one place on. */
  lemma InsertingSwap(s: seq<Batch>, i: int, j: int, order: Order)
    requires Inserting(s, i, j, order) && j > 0 && Key(order, s[j - 1]) > Key(order, s[j])
    ensures Inserting(s[j - 1 := s[j]][j := s[j - 1]], i, j - 1, order)
    ensures multiset(s[j - 1 := s[j]][j := s[j - 1]]) == multiset(s)
  {
  }

  /** Once the element to its left is not greater, the first i + 1 elements are in order. */
  lemma InsertingDone(s: seq<Batch>, i: int, j: int, order: Order)
    requires Inserting(s, i, j, order) && (j == 0 || Key(order, s[j - 1]) <= Key(order, s[j]))
    ensures Sorted(s[..i + 1], order)
  {
    forall p, q | 0 <= p < q <= i
      ensures Key(order, s[p]) <= Key(order, s[q])
    {
      if q == j && p < j - 1 {
        assert Key(order, s[p]) <= Key(order, s[j - 1]);
      }
    }
  }

  /**
   * One step of the insertion sort: the element at i moves left past every element with a
   * greater key, so that the first i + 1 elements are sorted.
   */
  method Insert(a: array<Batch>, i: nat, order: Order)
    requires i < a.Length && Sorted(a[..i], order)
    modifies a
    ensures Sorted(a[..i + 1], order)
    ensures multiset(a[..]) == multiset(old(a[..]))
  {
    InsertingStart(a[..], i, order);
    var j := i;
    while j > 0 && Compare(order, a[j - 1], a[j]) > 0
      invariant Inserting(a[..], i, j, order)
      invariant multiset(a[..]) == multiset(old(a[..]))
    {
      ghost var s := a[..];
      InsertingSwap(s, i, j, order);
      a[j - 1], a[j] := a[j], a[j - 1];
      assert a[..] == s[j - 1 := s[j]][j := s[j - 1]];
      j := j - 1;
    }
    InsertingDone(a[..], i, j, order);
  }

  /** `sorted.sort(compare)`: a stable insertion sort of the array, in place. */
  method SortInPlace(a: array<Batch>, order: Order)
    modifies a
    ensures Sorted(a[..], order)
    ensures multiset(a[..]) == multiset(old(a[..]))
  {
    var i := 0;
    while i < a.Length
      invariant 0 <= i <= a.Length
      invariant Sorted(a[..i], order)
      invariant multiset(a[..]) == multiset(old(a[..]))
    {
      Insert(a, i, order);
      i := i + 1;
    }
    assert a[..a.Length] == a[..];
  }

  /**
   * `sortBatches(batches, sortBy)`: a new array holding the same batches, sorted by the key
   * sortBy names; any other key keeps the original order. The input array is only read.
   */
  method SortBatches(batches: array<Batch>, sortBy: string) returns (sorted: array<Batch>)
    requires sortBy != "assetId"
    ensures fresh(sorted)
    ensures multiset(sorted[..]) == multiset(batches[..])
    ensures sortBy == "newest" ==> forall i, j :: 0 <= i < j < sorted.Length ==> sorted[i].createdAt >= sorted[j].createdAt
    ensures sortBy == "oldest" ==> forall i, j :: 0 <= i < j < sorted.Length ==> sorted[i].createdAt <= sorted[j].createdAt
    ensures sortBy == "status" ==> forall i, j :: 0 <= i < j < sorted.Length ==> sorted[i].status <= sorted[j].status
    ensures sortBy !in {"newest", "oldest", "status"} ==> sorted[..] == batches[..]
  {
    var copy := batches[..];
    sorted := new Batch[|copy|](k requires 0 <= k < |copy| => copy[k]);
    assert sorted[..] == copy;
    var order := OrderOf(sortBy);
    if order.Some? {
      SortInPlace(sorted, order.value);
      assert forall i, j :: 0 <= i < j < sorted.Length ==> Key(order.value, sorted[i]) <= Key(order.value, sorted[j]);
    }
  }
}
