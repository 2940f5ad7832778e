/**
 * The rows of the tables the ledger API reads and writes (Supplier, City,
 * LedgerGroup, Users) and the pure parts of its SQL statements: the WHERE
 * filters, the ORDER BY of the ledger-group query, and the row the INSERT
 * and the UPDATE produce.
 */
module Tables {
  import opened Wrappers

  /** The Supplier columns, other than City, that an update takes from the request body. */
  datatype SupplierDetails = SupplierDetails(
    supplier: string, printName: string, add1: string, add2: string, add3: string,
    phone: string, fax: string, tngstNo: string, tinNo: string, mailid: string,
    contactPerson: string, mobileNo: string, supplierCustomer: string, isactive: string,
    ledgerGroupId: int, supCode: string, creditDays: int, vhNo: string,
    opBalAmt: int, opType: string)

  /** One row of the Supplier table; `opDt` and `lastUpdate` are timestamps. */
  datatype SupplierRow = SupplierRow(
    supplierId: int, details: SupplierDetails, city: int, compId: int, opDt: int, lastUpdate: int)

  /** The JSON body of POST and PUT /api/suppliers; `city` is None when the body has no City. */
  datatype SupplierBody = SupplierBody(city: Option<int>, details: SupplierDetails, compId: int, opDt: int)

  datatype CityRow = CityRow(city: string, isActive: string)
  datatype CityItem = CityItem(cityId: int, city: string)

  datatype LedgerGroupRow = LedgerGroupRow(ledgerGroupId: int, ledgerGroup: string, compId: int)
  datatype LedgerGroupItem = LedgerGroupItem(ledgerGroupId: int, ledgerGroup: string)

  datatype UserRow = UserRow(userName: string, pwd: string, userId: int, isAllComp: string, rightsCompId: int, isActive: string)
  /** A Users row without `Pwd`, plus `companyId`: the `user` object of a successful login. */
  datatype LoginUser = LoginUser(userId: int, isAllComp: string, rightsCompId: int, companyId: int)

  /** The Supplier table, keyed by its primary key SupplierId. */
  type SupplierTable = map<int, SupplierRow>

  ghost predicate KeyedById(t: SupplierTable) {
    forall id :: id in t ==> t[id].supplierId == id
  }

  /** The supplier list query: the rows of company `c`, as a set, since the query fixes no order. */
  function CompanyRows(t: SupplierTable, c: int): (rows: set<SupplierRow>)
    ensures forall id :: id in t && t[id].compId == c ==> t[id] in rows
    ensures forall row :: row in rows ==> row.compId == c && exists id :: id in t && t[id] == row
  {
    set id | id in t && t[id].compId == c :: t[id]
  }

  /** The row the UPDATE writes: the body's columns and City, LastUpdate = now; SupplierId, CompId and OpDt are kept. */
  function ApplyUpdate(row: SupplierRow, body: SupplierBody, now: int): (r: SupplierRow)
    requires body.city.Some?
    ensures r.supplierId == row.supplierId && r.compId == row.compId && r.opDt == row.opDt
    ensures r.details == body.details && r.city == body.city.value && r.lastUpdate == now
  {
    row.(details := body.details, city := body.city.value, lastUpdate := now)
  }

  /** The row the INSERT writes under the key `id` the storage assigns; LastUpdate = now. */
  function NewRow(id: int, body: SupplierBody, now: int): (r: SupplierRow)
    requires body.city.Some?
    ensures r.supplierId == id && r.compId == body.compId && r.opDt == body.opDt
    ensures r.details == body.details && r.city == body.city.value && r.lastUpdate == now
  {
    SupplierRow(id, body.details, body.city.value, body.compId, body.opDt, now)
  }

  /** The cities query: id and name of every active city. */
  function ActiveCities(cities: map<int, CityRow>): (r: set<CityItem>)
    ensures forall item :: item in r <==> item.cityId in cities && cities[item.cityId] == CityRow(item.city, "Y")
  {
    set id | id in cities && cities[id].isActive == "Y" :: CityItem(id, cities[id].city)
  }

  // ---------------------------------------------------------------------------
  // Ledger groups of one company, sorted by name

  /** The ledger groups of company `c`, as id and name, in table order, before sorting. */
  function GroupsOf(groups: seq<LedgerGroupRow>, c: int): (r: seq<LedgerGroupItem>)
    ensures |r| <= |groups|
    ensures forall j :: 0 <= j < |r| ==> LedgerGroupRow(r[j].ledgerGroupId, r[j].ledgerGroup, c) in groups
    ensures forall i :: 0 <= i < |groups| && groups[i].compId == c ==>
      LedgerGroupItem(groups[i].ledgerGroupId, groups[i].ledgerGroup) in r
  {
    if |groups| == 0 then []
    else
      var g := groups[0];
      (if g.compId == c then [LedgerGroupItem(g.ledgerGroupId, g.ledgerGroup)] else []) + GroupsOf(groups[1..], c)
  }

  /** Lexicographic order on names, by character code: a prefix comes first, and the first characters never descend. */
  predicate NameLe(a: string, b: string)
    ensures a <= b ==> NameLe(a, b)
    ensures NameLe(a, b) && a != [] ==> b != [] && a[0] <= b[0]
  {
    a == [] || (b != [] && (a[0] < b[0] || (a[0] == b[0] && NameLe(a[1..], b[1..]))))
  }

  lemma {:induction false} NameLeTotal(a: string, b: string)
    ensures NameLe(a, b) || NameLe(b, a)
  {
    if a != [] && b != [] && a[0] == b[0] {
      NameLeTotal(a[1..], b[1..]);
    }
  }

  lemma {:induction false} NameLeAntisymmetric(a: string, b: string)
    requires NameLe(a, b) && NameLe(b, a)
    ensures a == b
  {
    if a != [] {
      NameLeAntisymmetric(a[1..], b[1..]);
      assert a == [a[0]] + a[1..] && b == [b[0]] + b[1..];
    }
  }

  predicate SortedByName(s: seq<LedgerGroupItem>) {
    forall i :: 0 < i < |s| ==> NameLe(s[i - 1].ledgerGroup, s[i].ledgerGroup)
  }

  /** Inserts `x` into a list sorted by name, keeping it sorted. */
  function InsertByName(x: LedgerGroupItem, s: seq<LedgerGroupItem>): (r: seq<LedgerGroupItem>)
    requires SortedByName(s)
    ensures SortedByName(r) && multiset(r) == multiset(s) + multiset{x}
    ensures r[0] == x || (|s| > 0 && r[0] == s[0])
  {
    if s == [] then [x]
    else if NameLe(x.ledgerGroup, s[0].ledgerGroup) then [x] + s
    else
      NameLeTotal(x.ledgerGroup, s[0].ledgerGroup);
      assert s == [s[0]] + s[1..];
      [s[0]] + InsertByName(x, s[1..])
  }

  /** Sorting by ledger-group name: a sorted permutation of `s`. */
  function SortByName(s: seq<LedgerGroupItem>): (r: seq<LedgerGroupItem>)
    ensures SortedByName(r) && multiset(r) == multiset(s)
  {
    if s == [] then []
    else
      assert s == [s[0]] + s[1..];
      InsertByName(s[0], SortByName(s[1..]))
  }

  // ---------------------------------------------------------------------------
  // Users: lookup of an active user by name

  /** The index of the first active user called `name`, the row login checks, or -1 when there is none. */
  function FirstActiveUser(users: seq<UserRow>, name: string): (r: int)
    ensures -1 <= r < |users|
    ensures r == -1 <==> forall i :: 0 <= i < |users| ==> !(users[i].userName == name && users[i].isActive == "Y")
    ensures 0 <= r ==> users[r].userName == name && users[r].isActive == "Y"
    ensures 0 <= r ==> forall i :: 0 <= i < r ==> !(users[i].userName == name && users[i].isActive == "Y")
  {
    if |users| == 0 then -1
    else if users[0].userName == name && users[0].isActive == "Y" then 0
    else
      var j := FirstActiveUser(users[1..], name);
      if j == -1 then -1 else j + 1
  }

  // ---------------------------------------------------------------------------
  // Company scoping of writes

  /** An update of a row of company `c` leaves the rows of every other company as they were. */
  lemma UpdateKeepsOtherCompanies(t: SupplierTable, id: int, body: SupplierBody, now: int, d: int)
    requires KeyedById(t) && id in t && body.city.Some? && t[id].compId != d
    ensures CompanyRows(t[id := ApplyUpdate(t[id], body, now)], d) == CompanyRows(t, d)
  {
    var t' := t[id := ApplyUpdate(t[id], body, now)];
    forall row | row in CompanyRows(t', d) ensures row in CompanyRows(t, d) {
      var k :| k in t' && t'[k] == row;
      assert k != id;
    }
    forall row | row in CompanyRows(t, d) ensures row in CompanyRows(t', d) {
      var k :| k in t && t[k] == row;
      assert k != id && t'[k] == row;
    }
  }

  /** Within company `c`, an update swaps the old row for the new one and changes nothing else. */
  lemma UpdateWithinCompany(t: SupplierTable, id: int, body: SupplierBody, now: int)
    requires KeyedById(t) && id in t && body.city.Some?
    ensures var c := t[id].compId;
      CompanyRows(t[id := ApplyUpdate(t[id], body, now)], c) == CompanyRows(t, c) - {t[id]} + {ApplyUpdate(t[id], body, now)}
  {
    var c := t[id].compId;
    var t' := t[id := ApplyUpdate(t[id], body, now)];
    forall row | row in CompanyRows(t', c) ensures row in CompanyRows(t, c) - {t[id]} + {t'[id]} {
      var k :| k in t' && t'[k] == row;
      if k != id {
        assert row.supplierId == k;
      }
    }
    forall row | row in CompanyRows(t, c) - {t[id]} + {t'[id]} ensures row in CompanyRows(t', c) {
      if row != t'[id] {
        var k :| k in t && t[k] == row;
        assert k != id && t'[k] == row;
      }
    }
  }

  /** An insert under a fresh key adds the new row to its company's rows and to no other company's. */
  lemma InsertScoping(t: SupplierTable, id: int, body: SupplierBody, now: int, d: int)
    requires id !in t && body.city.Some?
    ensures CompanyRows(t[id := NewRow(id, body, now)], d) ==
      if d == body.compId then CompanyRows(t, d) + {NewRow(id, body, now)} else CompanyRows(t, d)
  {
    var row' := NewRow(id, body, now);
    var t' := t[id := row'];
    var expected := if d == body.compId then CompanyRows(t, d) + {row'} else CompanyRows(t, d);
    forall row | row in CompanyRows(t', d) ensures row in expected {
      var k :| k in t' && t'[k] == row;
      if k != id {
        assert t[k] == row;
      }
    }
    forall row | row in expected ensures row in CompanyRows(t', d) {
      if row == row' && d == body.compId {
        assert t'[id] == row;
      } else {
        var k :| k in t && t[k] == row;
        assert k != id && t'[k] == row;
      }
    }
  }
}
