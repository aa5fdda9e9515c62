/**
 * The list-query builder shared by the three `index` handlers: it turns the
 * query-string map into the options handed to the store (a `where` filter,
 * an `order` list, `limit` and `offset`), or into the first date error.
 *
 * `Build` is the specification; each controller's `Index` method assembles
 * the same options step by step and is proved equal to it.
 */
module ListQuery {
  import opened Js

  /** `req.query`: the query-string parameters that are present. */
  type Query = map<string, string>

  function Param(q: Query, key: string): Option<string> {
    if key in q then Some(q[key]) else None
  }

  /** The four date parameters, in the order the handlers check them. */
  datatype DateField = CreatedAfter | CreatedBefore | UpdatedAfter | UpdatedBefore {
    function Name(): string {
      match this
      case CreatedAfter => "createdAfter"
      case CreatedBefore => "createdBefore"
      case UpdatedAfter => "updatedAfter"
      case UpdatedBefore => "updatedBefore"
    }
    function Rank(): nat {
      match this
      case CreatedAfter => 0
      case CreatedBefore => 1
      case UpdatedAfter => 2
      case UpdatedBefore => 3
    }
  }

  const DateOrder: seq<DateField> := [CreatedAfter, CreatedBefore, UpdatedAfter, UpdatedBefore]

  /**
   * A range on a timestamp column: `[Op.gte]` and `[Op.lte]`, each bound
   * holding the string `parseISO` was applied to (the instant it denotes is
   * a function of that string).
   */
  datatype DateRange = DateRange(gte: Option<string>, lte: Option<string>)

  /** One `[field, direction]` entry of Sequelize's `order`. */
  datatype SortKey = SortKey(field: string, direction: string)

  /**
   * The `where` object: the contacts' parent scope, the `%x%` iLike patterns,
   * the status token list for `[Op.in]`, and the two date ranges.
   */
  datatype Where = Where(
    customerId: Option<string>,
    name: Option<string>,
    email: Option<string>,
    status: Option<seq<string>>,
    createdAt: Option<DateRange>,
    updatedAt: Option<DateRange>)

  /** The options object handed to `findAll` / `findAndCountAll`. */
  datatype FindOptions = FindOptions(where: Where, order: seq<SortKey>, limit: int, offset: int)

  /** Sequelize's `attributes` option: every column but the excluded ones, or exactly the listed ones. */
  datatype Columns = Excluding(excluded: set<string>) | Only(listed: seq<string>) {
    /** Whether the store returns `column` under this projection. */
    predicate Returns(column: string) {
      match this
      case Excluding(e) => column !in e
      case Only(l) => column in l
    }
  }

  /** One entry of Sequelize's `include`: the association, its columns, and whether the join is inner. */
  datatype Include = Include(association: string, columns: Columns, required: bool)

  /** Either the options, or the first date parameter that failed to parse. */
  datatype Built = Built(options: FindOptions) | BadDate(field: DateField)

  /** The `pagination` object of the users' and customers' listings. */
  datatype Pagination = Pagination(total: nat, page: int, limit: int, totalPages: int)

  const DefaultPage := 1
  const DefaultLimit := 25

  /** `parseInt(req.query.page, 10) || 1`. */
  function PageOf(q: Query): int {
    IntOr(ParseIntOf(Param(q, "page")), DefaultPage)
  }

  /** `parseInt(req.query.limit, 10) || 25`; never zero, so `count / limit` is defined. */
  function LimitOf(q: Query): (limit: int)
    ensures limit != 0
  {
    IntOr(ParseIntOf(Param(q, "limit")), DefaultLimit)
  }

  /** `` `%${v}%` `` when the parameter is truthy. */
  function Pattern(v: Option<string>): Option<string> {
    if Truthy(v) then Some("%" + v.value + "%") else None
  }

  /** `status.split(",").map((s) => s.toUpperCase())` when the parameter is truthy. */
  function StatusList(v: Option<string>): Option<seq<string>> {
    if Truthy(v) then Some(UpperAll(Split(v.value, ','))) else None
  }

  /** `const [field, dir] = s.split(":"); [field, dir ? dir.toUpperCase() : "ASC"]`. */
  function SortKeyOf(item: string): SortKey {
    var parts := Split(item, ':');
    var dir := if |parts| > 1 then Some(parts[1]) else None;
    SortKey(parts[0], if Truthy(dir) then ToUpper(dir.value) else "ASC")
  }

  function SortKeys(items: seq<string>): (keys: seq<SortKey>)
    ensures |keys| == |items|
    ensures forall i :: 0 <= i < |items| ==> keys[i] == SortKeyOf(items[i])
  {
    if items == [] then [] else [SortKeyOf(items[0])] + SortKeys(items[1..])
  }

  /** `order`: empty unless `sort` is truthy, then one key per comma-separated item. */
  function Order(v: Option<string>): seq<SortKey> {
    if Truthy(v) then SortKeys(Split(v.value, ',')) else []
  }

  /** The range a pair of `*After` / `*Before` parameters gives when either is truthy. */
  function Range(after: Option<string>, before: Option<string>): Option<DateRange> {
    if Truthy(after) || Truthy(before) then
      Some(DateRange(if Truthy(after) then after else None, if Truthy(before) then before else None))
    else None
  }

  /** The date parameter `f` is given (truthy) and `isValid(parseISO(..))` rejects it. */
  predicate InvalidDate(q: Query, validDate: string -> bool, f: DateField) {
    Truthy(Param(q, f.Name())) && !validDate(Param(q, f.Name()).value)
  }

  function FirstInvalid(q: Query, validDate: string -> bool, fields: seq<DateField>): Option<DateField> {
    if fields == [] then None
    else if InvalidDate(q, validDate, fields[0]) then Some(fields[0])
    else FirstInvalid(q, validDate, fields[1..])
  }

  /**
   * The specification of the builder. `scope` is the contacts' path
   * `customerId` (None for users and customers).
   */
  function Build(q: Query, scope: Option<string>, validDate: string -> bool): (r: Built)
    ensures r.BadDate? ==> InvalidDate(q, validDate, r.field)
    ensures r.Built? <==> forall g: DateField :: !InvalidDate(q, validDate, g)
    ensures r.Built? ==>
      && r.options.where.customerId == scope
      && r.options.limit == LimitOf(q) && r.options.offset == (PageOf(q) - 1) * LimitOf(q)
  {
    FirstInvalidOfDateOrder(q, validDate);
    match FirstInvalid(q, validDate, DateOrder)
    case Some(f) => BadDate(f)
    case None =>
      var where := Where(
        scope,
        Pattern(Param(q, "name")),
        Pattern(Param(q, "email")),
        StatusList(Param(q, "status")),
        Range(Param(q, "createdAfter"), Param(q, "createdBefore")),
        Range(Param(q, "updatedAfter"), Param(q, "updatedBefore")));
      Built(FindOptions(where, Order(Param(q, "sort")), LimitOf(q), (PageOf(q) - 1) * LimitOf(q)))
  }

  /** `Math.ceil(n / d)` for a count `n` and a non-zero limit `d`. */
  function CeilDiv(n: nat, d: int): (r: int)
    requires d != 0
    ensures d > 0 ==> (r - 1) * d < n <= r * d
    ensures d < 0 ==> r * d <= n < (r - 1) * d
  {
    if d > 0 then
      var r := n / d + (if n % d == 0 then 0 else 1);
      assert n == (n / d) * d + n % d;
      r
    else
      var r := -(n / -d);
      assert n == (n / -d) * -d + n % -d;
      r
  }

  /** `{ total: count, page, limit, totalPages: Math.ceil(count / limit) }`. */
  function Paginate(count: nat, q: Query): (p: Pagination)
    ensures p.total == count && p.page == PageOf(q) && p.limit == LimitOf(q)
    ensures p.limit > 0 ==> (p.totalPages - 1) * p.limit < count <= p.totalPages * p.limit
  {
    Pagination(count, PageOf(q), LimitOf(q), CeilDiv(count, LimitOf(q)))
  }

  // ---------------------------------------------------------------------------
  // The handlers' step-by-step construction
  // ---------------------------------------------------------------------------

  /** What one pair of date parameters contributes: a range (or none), or the parameter that failed. */
  datatype Bounds = Bounds(range: Option<DateRange>) | Rejected(field: DateField)

  /** The specification of one pair: the `*After` check comes first, then the `*Before` check. */
  function PairBounds(q: Query, validDate: string -> bool, after: DateField, before: DateField): Bounds {
    if InvalidDate(q, validDate, after) then Rejected(after)
    else if InvalidDate(q, validDate, before) then Rejected(before)
    else Bounds(Range(Param(q, after.Name()), Param(q, before.Name())))
  }

  /**
   * A pair the way the users' and customers' `index` handle it: the range
   * object is made first, and each bound is checked and then set in turn.
   */
  method BoundsInTurn(q: Query, validDate: string -> bool, after: DateField, before: DateField) returns (b: Bounds)
    ensures b == PairBounds(q, validDate, after, before)
  {
    var from, to := Param(q, after.Name()), Param(q, before.Name());
    if !(Truthy(from) || Truthy(to)) { return Bounds(None); }
    var range := DateRange(None, None);
    if Truthy(from) {
      if !validDate(from.value) { return Rejected(after); }
      range := range.(gte := from);
    }
    if Truthy(to) {
      if !validDate(to.value) { return Rejected(before); }
      range := range.(lte := to);
    }
    b := Bounds(Some(range));
  }

  /**
   * A pair the way the contacts' `index` handles it: both parameters are
   * checked before the range object is made and filled.
   */
  method BoundsCheckedFirst(q: Query, validDate: string -> bool, after: DateField, before: DateField) returns (b: Bounds)
    ensures b == PairBounds(q, validDate, after, before)
  {
    var from, to := Param(q, after.Name()), Param(q, before.Name());
    if !(Truthy(from) || Truthy(to)) { return Bounds(None); }
    if Truthy(from) && !validDate(from.value) { return Rejected(after); }
    if Truthy(to) && !validDate(to.value) { return Rejected(before); }
    var range := DateRange(None, None);
    if Truthy(from) { range := range.(gte := from); }
    if Truthy(to) { range := range.(lte := to); }
    b := Bounds(Some(range));
  }

  /**
   * The text filters, set one by one on a `where` seeded with the scope:
   * `%name%`, `%email%`, and the upper-cased status tokens.
   */
  method TextFilters(q: Query, scope: Option<string>) returns (w: Where)
    ensures w == Where(scope, Pattern(Param(q, "name")), Pattern(Param(q, "email")), StatusList(Param(q, "status")), None, None)
  {
    var name, email, status := Param(q, "name"), Param(q, "email"), Param(q, "status");
    w := Where(scope, None, None, None, None, None);
    if Truthy(name) { w := w.(name := Some("%" + name.value + "%")); }
    if Truthy(email) { w := w.(email := Some("%" + email.value + "%")); }
    if Truthy(status) { w := w.(status := Some(UpperAll(Split(status.value, ',')))); }
  }

  /** The builder, read as the handlers run it: the created pair, then the updated pair. */
  lemma BuildByPairs(q: Query, scope: Option<string>, validDate: string -> bool)
    ensures Build(q, scope, validDate) ==
      match PairBounds(q, validDate, CreatedAfter, CreatedBefore)
      case Rejected(f) => BadDate(f)
      case Bounds(created) =>
        match PairBounds(q, validDate, UpdatedAfter, UpdatedBefore)
        case Rejected(f) => BadDate(f)
        case Bounds(updated) =>
          Built(FindOptions(
            Where(scope, Pattern(Param(q, "name")), Pattern(Param(q, "email")), StatusList(Param(q, "status")), created, updated),
            Order(Param(q, "sort")), LimitOf(q), (PageOf(q) - 1) * LimitOf(q)))
  {
    FirstInvalidUnfolded(q, validDate);
  }

  // ---------------------------------------------------------------------------
  // Properties of the builder
  // ---------------------------------------------------------------------------

  /** The first invalid date parameter in the handlers' checking order, written out case by case. */
  lemma FirstInvalidUnfolded(q: Query, validDate: string -> bool)
    ensures FirstInvalid(q, validDate, DateOrder) ==
      if InvalidDate(q, validDate, CreatedAfter) then Some(CreatedAfter)
      else if InvalidDate(q, validDate, CreatedBefore) then Some(CreatedBefore)
      else if InvalidDate(q, validDate, UpdatedAfter) then Some(UpdatedAfter)
      else if InvalidDate(q, validDate, UpdatedBefore) then Some(UpdatedBefore)
      else None
  {
    var t3, t2, t1 := DateOrder[1..], DateOrder[2..], DateOrder[3..];
    assert t3[1..] == t2 && t2[1..] == t1 && t1[1..] == [];
    assert FirstInvalid(q, validDate, t1) == if InvalidDate(q, validDate, UpdatedBefore) then Some(UpdatedBefore) else None;
    assert FirstInvalid(q, validDate, t2) ==
      if InvalidDate(q, validDate, UpdatedAfter) then Some(UpdatedAfter) else FirstInvalid(q, validDate, t1);
    assert FirstInvalid(q, validDate, t3) ==
      if InvalidDate(q, validDate, CreatedBefore) then Some(CreatedBefore) else FirstInvalid(q, validDate, t2);
  }

  /** Whether every date parameter checked before `f` is absent, empty or valid. */
  lemma EarlierValid(q: Query, validDate: string -> bool, f: DateField)
    ensures (forall g: DateField :: g.Rank() < f.Rank() ==> !InvalidDate(q, validDate, g)) <==>
      match f
      case CreatedAfter => true
      case CreatedBefore => !InvalidDate(q, validDate, CreatedAfter)
      case UpdatedAfter => !InvalidDate(q, validDate, CreatedAfter) && !InvalidDate(q, validDate, CreatedBefore)
      case UpdatedBefore =>
        !InvalidDate(q, validDate, CreatedAfter) && !InvalidDate(q, validDate, CreatedBefore)
        && !InvalidDate(q, validDate, UpdatedAfter)
  {
    assert CreatedAfter.Rank() == 0 && CreatedBefore.Rank() == 1 && UpdatedAfter.Rank() == 2;
  }

  /**
   * The first invalid date parameter is one that is invalid while every
   * parameter checked before it is fine; there is none exactly when all are.
   */
  lemma FirstInvalidOfDateOrder(q: Query, validDate: string -> bool)
    ensures FirstInvalid(q, validDate, DateOrder) == None <==> forall g: DateField :: !InvalidDate(q, validDate, g)
    ensures forall f: DateField :: FirstInvalid(q, validDate, DateOrder) == Some(f) <==>
      InvalidDate(q, validDate, f) && forall g: DateField :: g.Rank() < f.Rank() ==> !InvalidDate(q, validDate, g)
  {
    FirstInvalidUnfolded(q, validDate);
    forall f: DateField
      ensures FirstInvalid(q, validDate, DateOrder) == Some(f) <==>
        InvalidDate(q, validDate, f) && forall g: DateField :: g.Rank() < f.Rank() ==> !InvalidDate(q, validDate, g)
    {
      EarlierValid(q, validDate, f);
    }
  }

  /**
   * The builder fails with `f` exactly when `f` is given but invalid and
   * every date parameter checked before it is absent, empty or valid.
   */
  lemma DateErrorIsFirstInvalid(q: Query, scope: Option<string>, validDate: string -> bool, f: DateField)
    ensures Build(q, scope, validDate) == BadDate(f) <==>
      InvalidDate(q, validDate, f) && forall g: DateField :: g.Rank() < f.Rank() ==> !InvalidDate(q, validDate, g)
  {
    FirstInvalidOfDateOrder(q, validDate);
  }

  /** A timestamp `t` satisfies `[Op.gte]` / `[Op.lte]` on the instants `timeOf` gives. */
  predicate InRange(t: int, r: Option<DateRange>, timeOf: string -> int) {
    r.None? ||
    ((r.value.gte.None? || timeOf(r.value.gte.value) <= t) && (r.value.lte.None? || t <= timeOf(r.value.lte.value)))
  }

  /**
   * `*After` is an inclusive lower bound and `*Before` an inclusive upper
   * bound; a parameter that is absent or empty constrains nothing; the two
   * timestamp columns are constrained independently.
   */
  lemma BoundsAreInclusive(q: Query, scope: Option<string>, validDate: string -> bool, timeOf: string -> int, created: int, updated: int)
    requires Build(q, scope, validDate).Built?
    ensures var w := Build(q, scope, validDate).options.where;
      && (InRange(created, w.createdAt, timeOf) <==>
           (Truthy(Param(q, "createdAfter")) ==> timeOf(q["createdAfter"]) <= created) &&
           (Truthy(Param(q, "createdBefore")) ==> created <= timeOf(q["createdBefore"])))
      && (InRange(updated, w.updatedAt, timeOf) <==>
           (Truthy(Param(q, "updatedAfter")) ==> timeOf(q["updatedAfter"]) <= updated) &&
           (Truthy(Param(q, "updatedBefore")) ==> updated <= timeOf(q["updatedBefore"])))
  {
  }


  /** Name and e-mail become `%x%` patterns only when non-empty. */
  lemma PatternsOnlyWhenGiven(q: Query, scope: Option<string>, validDate: string -> bool)
    requires Build(q, scope, validDate).Built?
    ensures var w := Build(q, scope, validDate).options.where;
      && (w.name.Some? <==> Truthy(Param(q, "name")))
      && (w.name.Some? ==> w.name.value == "%" + q["name"] + "%")
      && (w.email.Some? <==> Truthy(Param(q, "email")))
      && (w.email.Some? ==> w.email.value == "%" + q["email"] + "%")
  {
  }

  /**
   * Page defaults to 1 and limit to 25 when absent, non-numeric or zero;
   * any other parsed value is used as it is, without clamping.
   */
  lemma PageAndLimitDefaults(q: Query, n: int, rest: string)
    requires rest == [] || !IsDigit(rest[0])
    ensures "page" !in q ==> PageOf(q) == DefaultPage
    ensures "limit" !in q ==> LimitOf(q) == DefaultLimit
    ensures PageOf(q["page" := Decimal(n) + rest]) == (if n == 0 then DefaultPage else n)
    ensures LimitOf(q["limit" := Decimal(n) + rest]) == (if n == 0 then DefaultLimit else n)
    ensures "page" in q && ParseInt(q["page"]).None? ==> PageOf(q) == DefaultPage
    ensures "limit" in q && ParseInt(q["limit"]).None? ==> LimitOf(q) == DefaultLimit
  {
    ParseIntOfDecimal(n, rest);
  }

  /** The listing of an empty query: no filter, no order, the first 25 rows. */
  lemma EmptyQuery(scope: Option<string>, validDate: string -> bool)
    ensures Build(map[], scope, validDate) ==
      Built(FindOptions(Where(scope, None, None, None, None, None), [], DefaultLimit, 0))
    ensures Paginate(0, map[]) == Pagination(0, DefaultPage, DefaultLimit, 0)
  {
    FirstInvalidOfDateOrder(map[], validDate);
  }

  /** Upper-cased status tokens, given comma-joined, come back in order. */
  lemma {:induction false} StatusTokensRoundTrip(tokens: seq<string>, st: string)
    requires |tokens| >= 1 && tokens[0] != ""
    requires forall i :: 0 <= i < |tokens| ==> ',' !in tokens[i]
    ensures StatusList(Some(Join(tokens, ','))) == Some(UpperAll(tokens))
    ensures st in StatusList(Some(Join(tokens, ','))).value <==> exists i :: 0 <= i < |tokens| && ToUpper(tokens[i]) == st
  {
    SplitJoin(tokens, ',');
    JoinStartsWithFirst(tokens, ',');
    var up := UpperAll(tokens);
    if st in up {
      var k :| 0 <= k < |up| && up[k] == st;
    }
  }

  /** One item of a `sort` parameter as a client writes it: `field` or `field:dir`. */
  datatype SortItem = SortItem(field: string, direction: Option<string>) {
    function Text(): string {
      if direction.Some? then field + ":" + direction.value else field
    }
    /** The key the builder should make of it: upper-cased direction, ASC when missing or empty. */
    function Key(): SortKey {
      SortKey(field, if Truthy(direction) then ToUpper(direction.value) else "ASC")
    }
    predicate WellFormed() {
      field != "" && ',' !in field && ':' !in field &&
      (direction.Some? ==> ',' !in direction.value && ':' !in direction.value)
    }
  }

  function Texts(items: seq<SortItem>): (r: seq<string>)
    ensures |r| == |items| && forall i :: 0 <= i < |items| ==> r[i] == items[i].Text()
  {
    if items == [] then [] else [items[0].Text()] + Texts(items[1..])
  }

  function Keys(items: seq<SortItem>): (r: seq<SortKey>)
    ensures |r| == |items| && forall i :: 0 <= i < |items| ==> r[i] == items[i].Key()
  {
    if items == [] then [] else [items[0].Key()] + Keys(items[1..])
  }

  lemma JoinStartsWithFirst(parts: seq<string>, sep: char)
    requires |parts| >= 1
    ensures |Join(parts, sep)| >= |parts[0]| && Join(parts, sep)[..|parts[0]|] == parts[0]
  {
  }

  lemma SortKeyOfItem(item: SortItem)
    requires item.WellFormed()
    ensures SortKeyOf(item.Text()) == item.Key()
  {
    if item.direction.Some? {
      var d := item.direction.value;
      assert item.Text() == item.field + [':'] + d;
      SplitPieceThenSep(item.field, ':', d);
      SplitWithoutSep(d, ':');
    } else {
      SplitWithoutSep(item.field, ':');
    }
  }

  /** Each well-formed item, written out, gives the key it stands for. */
  lemma SortKeysOfTexts(items: seq<SortItem>)
    requires forall i :: 0 <= i < |items| ==> items[i].WellFormed()
    ensures SortKeys(Texts(items)) == Keys(items)
  {
    var keys := SortKeys(Texts(items));
    forall i | 0 <= i < |items| ensures keys[i] == Keys(items)[i] {
      SortKeyOfItem(items[i]);
    }
  }

  /** The written-out items of a well-formed list: no commas, and a non-empty first one. */
  lemma TextsAreCommaFree(items: seq<SortItem>)
    requires |items| >= 1
    requires forall i :: 0 <= i < |items| ==> items[i].WellFormed()
    ensures forall i :: 0 <= i < |items| ==> ',' !in Texts(items)[i]
    ensures Texts(items)[0] != []
  {
    var texts := Texts(items);
    forall i | 0 <= i < |texts| ensures ',' !in texts[i] {
      var it := items[i];
      if it.direction.Some? {
        assert texts[i] == it.field + [':'] + it.direction.value;
      }
    }
    assert |items[0].Text()| >= |items[0].field| > 0;
  }

  /**
   * Sort keys keep the order in which they are written: the first item is
   * the primary key; each direction is upper-cased and defaults to ASC.
   */
  lemma SortOrderRoundTrip(items: seq<SortItem>)
    requires |items| >= 1
    requires forall i :: 0 <= i < |items| ==> items[i].WellFormed()
    ensures Order(Some(Join(Texts(items), ','))) == Keys(items)
  {
    var texts := Texts(items);
    TextsAreCommaFree(items);
    SplitJoin(texts, ',');
    JoinStartsWithFirst(texts, ',');
    SortKeysOfTexts(items);
  }
}
