/**
 * The relational store the controllers talk to, as three tables keyed by
 * their auto-increment primary keys, and the few queries the handlers issue
 * against it (`findByPk`, `findOne({ where: { email } })`, the `id != x`
 * e-mail probe and the parent-scoped contact lookup).
 */
module Database {
  import opened Js

  /** A `users` row. `passwordHash` is `password_hash`; nothing else holds password material. */
  datatype User = User(name: string, email: string, passwordHash: string, status: string, role: string)

  /** A `customers` row. */
  datatype Customer = Customer(name: string, email: string, status: string)

  /** A `contacts` row; `customerId` is the `customer_id` foreign key. */
  datatype Contact = Contact(name: string, email: string, status: string, customerId: int)

  /**
   * The status a row gets when none is given: the column default of
   * `customers` and `contacts`, and the destructuring default of the users'
   * `create`.
   */
  const DefaultStatus := "ACTIVE"

  /** The statuses a customer or a contact may be given. */
  const Statuses := ["ACTIVE", "ARCHIVED"]

  /** No two users share an e-mail (the column is `unique`, and the handlers check before writing). */
  predicate UniqueEmails(users: map<int, User>) {
    forall a, b :: a in users && b in users && users[a].email == users[b].email ==> a == b
  }

  /** Every key of `m` was handed out by a counter that is now at `next`, starting from 1. */
  predicate KeysBelow<V>(m: map<int, V>, next: int) {
    forall id :: id in m ==> 1 <= id < next
  }

  class Db {
    var users: map<int, User>
    var customers: map<int, Customer>
    var contacts: map<int, Contact>
    /** The next value of each table's `id` sequence. */
    var nextUser: int
    var nextCustomer: int
    var nextContact: int

    ghost predicate Valid()
      reads this
    {
      && UniqueEmails(users)
      && 1 <= nextUser && 1 <= nextCustomer && 1 <= nextContact
      && KeysBelow(users, nextUser) && KeysBelow(customers, nextCustomer) && KeysBelow(contacts, nextContact)
    }

    /** An empty database whose sequences start at 1. */
    constructor ()
      ensures Valid()
      ensures users == map[] && customers == map[] && contacts == map[]
      ensures nextUser == 1 && nextCustomer == 1 && nextContact == 1
    {
      users, customers, contacts := map[], map[], map[];
      nextUser, nextCustomer, nextContact := 1, 1, 1;
    }
  }

  /** The ids of the users whose e-mail is exactly `email` (a case-sensitive `=`). */
  function WithEmail(users: map<int, User>, email: string): (ids: set<int>)
    ensures forall id :: id in ids <==> id in users && users[id].email == email
  {
    set id | id in users && users[id].email == email
  }

  lemma {:induction false} HasLeast(s: set<int>)
    requires s != {}
    ensures exists m :: m in s && forall x :: x in s ==> m <= x
  {
    if forall x :: x !in s {
      assert false;
    }
    var y :| y in s;
    if forall x :: x in s ==> x == y {
      assert forall x :: x in s ==> y <= x;
    } else {
      var z :| z in s && z != y;
      var rest := s - {y};
      assert z in rest;
      HasLeast(rest);
      var m :| m in rest && forall x :: x in rest ==> m <= x;
      var least := if y < m then y else m;
      assert forall x :: x in s ==> x == y || x in rest;
      assert least in s && forall x :: x in s ==> least <= x;
    }
  }

  function Least(s: set<int>): (m: int)
    requires s != {}
    ensures m in s && forall x :: x in s ==> m <= x
  {
    HasLeast(s);
    var m :| m in s && forall x :: x in s ==> m <= x;
    m
  }

  /**
   * `User.findOne({ where: { email } })`: a user whose e-mail is `email`, or
   * None. Without an `order` the store may return any match; the model takes
   * the lowest id, and under `UniqueEmails` there is only one.
   */
  function FindByEmail(users: map<int, User>, email: string): (r: Option<int>)
    ensures r.None? <==> forall id :: id in users ==> users[id].email != email
    ensures r.Some? ==> r.value in users && users[r.value].email == email
    ensures r.Some? ==> forall id :: id in users && users[id].email == email ==> r.value <= id
  {
    var ids := WithEmail(users, email);
    if ids == {} then None else Some(Least(ids))
  }

  /** Under the unique-e-mail invariant, at most one user holds any e-mail. */
  lemma AtMostOneHolder(users: map<int, User>, email: string)
    requires UniqueEmails(users)
    ensures |WithEmail(users, email)| <= 1
  {
    var ids := WithEmail(users, email);
    if ids != {} {
      if forall x :: x !in ids {
        assert false;
      }
      var a :| a in ids;
      assert ids == {a} by {
        forall b | b in ids ensures b == a {
          assert users[a].email == users[b].email;
        }
      }
    }
  }

  /** With unique e-mails, the lookup finds exactly the user holding the e-mail. */
  lemma FindByEmailUnique(users: map<int, User>, id: int)
    requires UniqueEmails(users) && id in users
    ensures FindByEmail(users, users[id].email) == Some(id)
  {
  }

  /** `User.findOne({ where: { email, id: { [Op.ne]: id } } })` finds a row. */
  predicate EmailTakenByOther(users: map<int, User>, email: string, id: int) {
    exists other :: other in users && other != id && users[other].email == email
  }

  /** Giving user `id` an e-mail nobody else holds keeps e-mails unique. */
  lemma {:induction false} UniqueAfterUpdate(users: map<int, User>, id: int, u: User)
    requires UniqueEmails(users)
    requires !EmailTakenByOther(users, u.email, id)
    ensures UniqueEmails(users[id := u])
  {
    var m := users[id := u];
    forall a, b | a in m && b in m && m[a].email == m[b].email ensures a == b {
      if a != id && b != id {
        assert users[a].email == users[b].email;
      }
    }
  }

  // ---------------------------------------------------------------------------
  // What SQLite makes of the text written into the INTEGER column `customer_id`
  // ---------------------------------------------------------------------------

  const MinInt64 := -0x8000_0000_0000_0000
  const MaxInt64 := 0x7FFF_FFFF_FFFF_FFFF

  /** A real whose value is an integer inside this bound is stored back as that integer. */
  const ExactRealBound := 0x8_0000_0000_0000

  /** The white space SQLite skips around a numeric literal. */
  predicate IsSqlSpace(c: char) {
    c == ' ' || c == '\t' || c == '\n' || c == '\U{B}' || c == '\U{C}' || c == '\r'
  }

  /** `s` without its leading SQLite white space. */
  function TrimLeading(s: string): (t: string)
    ensures |t| <= |s|
    ensures t == [] || !IsSqlSpace(t[0])
  {
    if s != [] && IsSqlSpace(s[0]) then TrimLeading(s[1..]) else s
  }

  /** `s` without its trailing SQLite white space. */
  function TrimTrailing(s: string): (t: string)
    ensures |t| <= |s|
    ensures t == [] || !IsSqlSpace(t[|t| - 1])
  {
    if s != [] && IsSqlSpace(s[|s| - 1]) then TrimTrailing(s[..|s| - 1]) else s
  }

  /** `s` without its leading and trailing SQLite white space. */
  function TrimSql(s: string): string {
    TrimTrailing(TrimLeading(s))
  }

  /**
   * A numeric literal: the value is `digits * 10^scale`, negated when
   * `negative`; `integral` when the literal has neither a decimal point nor
   * an exponent.
   */
  datatype Numeral = Numeral(integral: bool, negative: bool, digits: string, scale: int)

  /**
   * The numeric literal `t` spells out entirely: a sign, digits with an
   * optional decimal point (at least one digit in all), then an optional
   * `e`/`E`, sign and digits. Anything else (hexadecimal included) is no
   * numeral, and the column keeps such text as TEXT.
   */
  function ReadNumeral(t: string): (r: Option<Numeral>)
    ensures r.Some? ==> |r.value.digits| > 0 && AllDigits(r.value.digits)
    ensures r.Some? && r.value.integral ==> r.value.scale == 0
  {
    if |t| > 0 && (t[0] == '-' || t[0] == '+') then ReadMantissa(t[1..], t[0] == '-') else ReadMantissa(t, false)
  }

  /** The unsigned part: digits, optionally a point and more digits, then what `ReadExponent` takes. */
  function ReadMantissa(a: string, negative: bool): (r: Option<Numeral>)
    ensures r.Some? ==> |r.value.digits| > 0 && AllDigits(r.value.digits) && r.value.negative == negative
    ensures r.Some? && r.value.integral ==> r.value.scale == 0
  {
    var w := DigitRun(a);
    if w < |a| && a[w] == '.' then
      var c := a[w + 1..];
      var f := DigitRun(c);
      var digits := a[..w] + c[..f];
      assert AllDigits(digits) by {
        forall i | 0 <= i < |digits| ensures IsDigit(digits[i]) {
          if i >= w { assert digits[i] == c[i - w]; }
        }
      }
      if w + f == 0 then None else ReadExponent(Numeral(false, negative, digits, -(f as int)), c[f..])
    else if w == 0 then None
    else ReadExponent(Numeral(true, negative, a[..w], 0), a[w..])
  }

  /** The rest after the mantissa: nothing, or `e`/`E`, an optional sign and digits, which shift the scale. */
  function ReadExponent(n: Numeral, d: string): (r: Option<Numeral>)
    ensures r.Some? ==> r.value.digits == n.digits && r.value.negative == n.negative
    ensures r.Some? && r.value.integral ==> r.value.scale == n.scale && n.integral
  {
    if d == [] then Some(n)
    else if d[0] == 'e' || d[0] == 'E' then
      var signed := |d| > 1 && (d[1] == '-' || d[1] == '+');
      var g := if signed then d[2..] else d[1..];
      if g != [] && AllDigits(g) then
        var x: int := DigitsValue(g);
        Some(n.(integral := false, scale := n.scale + if signed && d[1] == '-' then -x else x))
      else None
    else None
  }

  function Pow10(k: nat): (p: nat)
    ensures p >= 1
  {
    if k == 0 then 1 else 10 * Pow10(k - 1)
  }

  /** The integer a numeral denotes, if it denotes one (`5.0`, `3e2`, but not `5.5`). */
  function IntegerValue(n: Numeral): (v: Option<int>)
    requires AllDigits(n.digits)
    ensures n.scale == 0 ==> v == Some(if n.negative then -(DigitsValue(n.digits) as int) else DigitsValue(n.digits))
  {
    var m := DigitsValue(n.digits);
    if n.scale < 0 && m % Pow10(-n.scale) != 0 then None
    else
      var magnitude := if n.scale >= 0 then m * Pow10(n.scale) else m / Pow10(-n.scale);
      Some(if n.negative then -magnitude else magnitude)
  }

  /**
   * The integer SQLite stores when the text `s` is written into the INTEGER
   * column `customer_id`, or None when the value stays TEXT or REAL:
   *   - surrounding white space is ignored;
   *   - an integer literal is stored as that integer when it fits in 64
   *     bits, and as a REAL otherwise;
   *   - a real literal is stored as an integer when its value is one inside
   *     the exact-real bound, and as a REAL otherwise;
   *   - any other text is stored as TEXT.
   * No primary key is TEXT or REAL, so the foreign key refuses every None.
   */
  function ColumnInt(s: string): (r: Option<int>)
    ensures r.Some? ==> MinInt64 <= r.value <= MaxInt64
    ensures r.Some? ==> ReadNumeral(TrimSql(s)).Some?
  {
    match ReadNumeral(TrimSql(s))
    case None => None
    case Some(n) =>
      var v := IntegerValue(n);
      if v.None? then None
      else if n.integral then (if MinInt64 <= v.value <= MaxInt64 then v else None)
      else if -ExactRealBound <= v.value < ExactRealBound then v else None
  }

  /** An optional sign followed by decimal digits, and nothing else. */
  predicate IsIntegerText(s: string) {
    IntegerBody(s) != [] && AllDigits(IntegerBody(s))
  }

  lemma {:induction false} DigitRunAll(s: string)
    requires AllDigits(s)
    ensures DigitRun(s) == |s|
  {
    if s != [] {
      DigitRunAll(s[1..]);
    }
  }

  /** The sign of an integer text, and the digits after it. */
  function IntegerBody(s: string): string {
    if |s| > 0 && (s[0] == '-' || s[0] == '+') then s[1..] else s
  }

  /** A plain integer text is, untrimmed, the integral numeral of its digits. */
  lemma IntegerTextNumeral(s: string)
    requires IsIntegerText(s)
    ensures TrimSql(s) == s && TrimStart(s) == s
    ensures ReadNumeral(TrimSql(s)) == Some(Numeral(true, s[0] == '-', IntegerBody(s), 0))
  {
    var body := IntegerBody(s);
    assert !IsSqlSpace(s[0]) && !IsWhiteSpace(s[0]) by {
      if !(s[0] == '-' || s[0] == '+') { assert s[0] == body[0]; }
    }
    assert !IsSqlSpace(s[|s| - 1]) by { assert s[|s| - 1] == body[|body| - 1]; }
    TrimPadding([], s, []);
    assert [] + s + [] == s;
    DigitRunAll(body);
    assert body[|body|..] == [] && body[..|body|] == body;
    assert ReadMantissa(body, s[0] == '-') == Some(Numeral(true, s[0] == '-', body, 0));
  }

  /** `parseInt` of a plain integer text reads all of its digits. */
  lemma IntegerTextParsed(s: string)
    requires IsIntegerText(s) && TrimStart(s) == s
    ensures ParseInt(s) == Some(if s[0] == '-' then -(DigitsValue(IntegerBody(s)) as int) else DigitsValue(IntegerBody(s)))
  {
    var body := IntegerBody(s);
    DigitRunAll(body);
    assert body[..|body|] == body;
  }

  /**
   * For a plain integer text the column and `parseInt` agree: the column
   * stores the integer `parseInt` reads whenever it fits in 64 bits, and
   * nothing otherwise.
   */
  lemma IntegerTextStoredAsParsed(s: string)
    requires IsIntegerText(s)
    ensures ParseInt(s).Some?
    ensures ColumnInt(s) == if MinInt64 <= ParseInt(s).value <= MaxInt64 then ParseInt(s) else None
  {
    IntegerTextNumeral(s);
    IntegerTextParsed(s);
  }

  /**
   * The column stores the decimal rendering of an integer as that integer
   * exactly when it fits in 64 bits; beyond, SQLite keeps a REAL, which the
   * foreign key refuses.
   */
  lemma ColumnIntOfDecimal(n: int)
    ensures ColumnInt(Decimal(n)) == if MinInt64 <= n <= MaxInt64 then Some(n) else None
  {
    ParseIntOfDecimal(n, []);
    assert Decimal(n) + [] == Decimal(n);
    var m: nat := if n < 0 then -n else n;
    assert IsIntegerText(Decimal(n)) by {
      if n >= 0 { assert Decimal(n)[0] == Digits(m)[0]; } else { assert Decimal(n)[1..] == Digits(m); }
    }
    IntegerTextStoredAsParsed(Decimal(n));
  }

  lemma {:induction false} TrimLeadingPadding(p: string, t: string)
    requires forall i :: 0 <= i < |p| ==> IsSqlSpace(p[i])
    requires t == [] || !IsSqlSpace(t[0])
    ensures TrimLeading(p + t) == t
  {
    if p != [] {
      assert (p + t)[0] == p[0] && (p + t)[1..] == p[1..] + t;
      TrimLeadingPadding(p[1..], t);
    } else {
      assert p + t == t;
    }
  }

  lemma {:induction false} TrimTrailingPadding(t: string, q: string)
    requires forall i :: 0 <= i < |q| ==> IsSqlSpace(q[i])
    requires t == [] || !IsSqlSpace(t[|t| - 1])
    ensures TrimTrailing(t + q) == t
  {
    if q != [] {
      assert (t + q)[|t + q| - 1] == q[|q| - 1] && (t + q)[..|t + q| - 1] == t + q[..|q| - 1];
      TrimTrailingPadding(t, q[..|q| - 1]);
    } else {
      assert t + q == t;
    }
  }

  /** Surrounding white space is ignored: padding a text that neither starts nor ends with it trims back to that text. */
  lemma TrimPadding(p: string, t: string, q: string)
    requires forall i :: 0 <= i < |p| ==> IsSqlSpace(p[i])
    requires forall i :: 0 <= i < |q| ==> IsSqlSpace(q[i])
    requires t != [] && !IsSqlSpace(t[0]) && !IsSqlSpace(t[|t| - 1])
    ensures TrimSql(p + t + q) == t
  {
    assert p + t + q == p + (t + q);
    TrimLeadingPadding(p, t + q);
    TrimTrailingPadding(t, q);
  }

  /** A text that neither starts nor ends with white space is read as it is. */
  lemma TrimUnpadded(t: string)
    requires t != [] && !IsSqlSpace(t[0]) && !IsSqlSpace(t[|t| - 1])
    ensures TrimSql(t) == t
  {
    TrimPadding([], t, []);
    assert [] + t + [] == t;
  }

  /** `w.f`: digits, a decimal point and digits read as the numeral `wf * 10^-|f|`. */
  lemma FractionNumeral(w: string, f: string)
    requires w != [] && AllDigits(w) && AllDigits(f)
    ensures ReadNumeral(w + "." + f) == Some(Numeral(false, false, w + f, -|f|))
  {
    var t := w + "." + f;
    assert t[0] == w[0];
    assert t == w + ("." + f);
    DigitRunOfDigitsThen(w, "." + f);
    assert t[|w|] == '.' && t[|w| + 1..] == f && t[..|w|] == w;
    DigitRunAll(f);
    assert f[|f|..] == [] && f[..|f|] == f;
    assert ReadMantissa(t, false) == ReadExponent(Numeral(false, false, w + f, -|f|), []);
  }

  /** `wex`: digits, `e` and digits read as the numeral `w * 10^x`. */
  lemma ExponentNumeral(w: string, x: string)
    requires w != [] && AllDigits(w) && x != [] && AllDigits(x)
    ensures ReadNumeral(w + "e" + x) == Some(Numeral(false, false, w, DigitsValue(x)))
  {
    var d := "e" + x;
    var t := w + d;
    assert w + "e" + x == t;
    assert ReadNumeral(t) == ReadMantissa(t, false) by {
      assert t[0] == w[0] && IsDigit(w[0]);
    }
    DigitRunOfDigitsThen(w, d);
    assert t[|w|..] == d && t[..|w|] == w && t[|w|] == 'e';
    assert ReadMantissa(t, false) == ReadExponent(Numeral(true, false, w, 0), d);
    UnsignedExponent(Numeral(true, false, w, 0), x);
  }

  /** An `e` and digits after a mantissa multiply it by that power of ten. */
  lemma UnsignedExponent(n: Numeral, x: string)
    requires x != [] && AllDigits(x)
    ensures ReadExponent(n, "e" + x) == Some(n.(integral := false, scale := n.scale + DigitsValue(x)))
  {
    var d := "e" + x;
    assert d[0] == 'e' && d[1] == x[0] && IsDigit(x[0]) && d[1..] == x;
  }

  /** Padding around an integer is ignored: `" 7 "` is stored as 7. */
  lemma PaddedIdStored()
    ensures ColumnInt(" 7 ") == Some(7)
  {
    assert " 7 " == " " + "7" + " ";
    TrimPadding(" ", "7", " ");
    assert IsIntegerText("7");
    IntegerTextNumeral("7");
    assert DigitsValue("7") == 7;
    StoredNumeral(" 7 ", Numeral(true, false, "7", 0), 7);
  }

  /** The column's reading of a text, given the numeral it spells out. */
  lemma StoredNumeral(s: string, n: Numeral, v: int)
    requires ReadNumeral(TrimSql(s)) == Some(n) && IntegerValue(n) == Some(v)
    requires if n.integral then MinInt64 <= v <= MaxInt64 else -ExactRealBound <= v < ExactRealBound
    ensures ColumnInt(s) == Some(v)
  {
  }

  /** A real literal whose value is an integer is stored as that integer: `5.0` as 5. */
  lemma PointZeroStored()
    ensures ColumnInt("5.0") == Some(5)
  {
    TrimUnpadded("5.0");
    assert "5.0" == "5" + "." + "0";
    FractionNumeral("5", "0");
    assert "5" + "0" == "50";
    assert DigitsValue("50") == 50 by { assert "50"[..1] == "5" && "5"[..0] == []; }
    assert Pow10(1) == 10;
    assert IntegerValue(Numeral(false, false, "50", -1)) == Some(5);
    StoredNumeral("5.0", Numeral(false, false, "50", -1), 5);
  }

  /** The exponent form too: `3e2` is stored as 300, where `parseInt` reads 3. */
  lemma ExponentStored()
    ensures ColumnInt("3e2") == Some(300) && ParseInt("3e2") == Some(3)
  {
    TrimUnpadded("3e2");
    assert "3e2" == "3" + "e" + "2";
    ExponentNumeral("3", "2");
    assert DigitsValue("2") == 2 by { assert "2"[..0] == []; }
    assert DigitsValue("3") == 3 by { assert "3"[..0] == []; }
    assert Pow10(2) == 100;
    StoredNumeral("3e2", Numeral(false, false, "3", 2), 300);
    assert Decimal(3) + "e2" == "3e2";
    ParseIntOfDecimal(3, "e2");
  }

  /** A fraction stays REAL. */
  lemma FractionRefused()
    ensures ColumnInt("5.5") == None
  {
    TrimUnpadded("5.5");
    assert "5.5" == "5" + "." + "5";
    FractionNumeral("5", "5");
    assert "5" + "5" == "55";
    assert DigitsValue("55") == 55 by { assert "55"[..1] == "5" && "5"[..0] == []; }
    assert Pow10(1) == 10;
    assert IntegerValue(Numeral(false, false, "55", -1)) == None;
  }

  /** A word or a hexadecimal literal stays TEXT. */
  lemma WordsRefused()
    ensures ColumnInt("abc") == None && ColumnInt("0x10") == None
  {
    TrimUnpadded("abc");
    TrimUnpadded("0x10");
    assert DigitRun("abc") == 0;
    assert "0x10" == "0" + "x10";
    DigitRunOfDigitsThen("0", "x10");
    assert "0x10"[1] == 'x' && "0x10"[1..] == "x10";
  }

  /** The contacts of customer `customerId` (a `hasMany` through `customer_id`). */
  function ContactsOf(contacts: map<int, Contact>, customerId: int): (r: map<int, Contact>)
    ensures forall id :: id in r <==> id in contacts && contacts[id].customerId == customerId
    ensures forall id :: id in r ==> r[id] == contacts[id]
  {
    map id | id in contacts && contacts[id].customerId == customerId :: contacts[id]
  }

  /**
   * The customers' contact lists partition the contacts: each contact is
   * listed under its own `customer_id` and under no other.
   */
  lemma ContactsPartition(contacts: map<int, Contact>, id: int, c1: int, c2: int)
    requires id in ContactsOf(contacts, c1) && id in ContactsOf(contacts, c2)
    ensures c1 == c2 == contacts[id].customerId
  {
  }

  /**
   * `Contact.findOne({ where: { id, customer_id: customerId } })`: the joint
   * lookup, which finds nothing when the contact belongs to another customer.
   */
  predicate ScopedContact(contacts: map<int, Contact>, id: int, customerId: int) {
    id in contacts && contacts[id].customerId == customerId
  }
}
