/**
 * The supplier/ledger REST handlers as methods of one `Database` object
 * holding the four tables. Each handler runs its checks in the order the
 * server does, returns at the first one that fails, and only then reads
 * or writes a table. The request values a handler tests for truthiness
 * (query parameters, headers, body fields) are Options: None stands for a
 * value that is absent or empty.
 */
module LedgerApi {
  import opened Wrappers
  import opened Tables

  /** An HTTP response: a status with a JSON value, or a status with an error message. */
  datatype Reply<T> = Success(status: int, value: T) | Failure(status: int, message: string)

  const InvalidCompanyId := "Invalid company ID provided"
  const NoLedgerGroups := "No ledger groups found for this company"
  const CompanyIdRequired := "Company ID is required"
  const SupplierNotFound := "Supplier not found"
  const InvalidCityCode := "Invalid city code. Please select a valid city."
  const ErrorCreatingSupplier := "Error creating supplier"
  const CredentialsRequired := "Username and password are required"
  const UnknownOrInactiveUser := "Invalid username or user is inactive"
  const InvalidPassword := "Invalid password"
  const CompanyIdRequiredInHeaders := "Company ID is required in headers"
  const NotFoundForCompany := "Supplier not found or does not belong to the company"

  /** JavaScript truthiness of an optional string: a missing value and the empty string are falsy. */
  predicate Falsy(s: Option<string>)
    ensures Falsy(s) <==> s.GetOr("") == ""
    ensures !Falsy(s) ==> |s.value| > 0
  {
    s.None? || s.value == ""
  }

  /** The success value of a login: the user's columns without the password, and companyId = RightsCompId. */
  function UserInfo(u: UserRow): (r: LoginUser)
    ensures r.userId == u.userId && r.isAllComp == u.isAllComp && r.rightsCompId == u.rightsCompId
    ensures r.companyId == u.rightsCompId
  {
    LoginUser(u.userId, u.isAllComp, u.rightsCompId, u.rightsCompId)
  }

  class Database {
    var suppliers: SupplierTable
    var cities: map<int, CityRow>
    var ledgerGroups: seq<LedgerGroupRow>
    var users: seq<UserRow>

    /** Every Supplier row sits under its own SupplierId. */
    ghost predicate Valid()
      reads this
    {
      KeyedById(suppliers)
    }

    constructor (suppliers: SupplierTable, cities: map<int, CityRow>, ledgerGroups: seq<LedgerGroupRow>, users: seq<UserRow>)
      requires KeyedById(suppliers)
      ensures Valid()
      ensures this.suppliers == suppliers && this.cities == cities
      ensures this.ledgerGroups == ledgerGroups && this.users == users
    {
      this.suppliers := suppliers;
      this.cities := cities;
      this.ledgerGroups := ledgerGroups;
      this.users := users;
    }

    /** The create/update city check: a City row with this CityId exists, whatever its IsActive flag. */
    predicate CityExists(city: Option<int>)
      reads this
      ensures forall id :: id in cities && city == Some(id) ==> CityExists(city)
      ensures CityExists(city) ==> city.Some? && city.value in cities
    {
      city.Some? && city.value in cities
    }

    /** GET /api/cities: the active cities only. */
    method ListCities() returns (r: Reply<set<CityItem>>)
      ensures r.Success? && r.status == 200
      ensures forall item :: item in r.value <==> item.cityId in cities && cities[item.cityId] == CityRow(item.city, "Y")
    {
      r := Success(200, ActiveCities(cities));
    }

    /**
     * GET /api/ledger-groups/:compId. `compId` is None when the path
     * parameter is empty or not numeric.
     */
    method ListLedgerGroups(compId: Option<int>) returns (r: Reply<seq<LedgerGroupItem>>)
      ensures compId.None? ==> r == Failure(400, InvalidCompanyId)
      ensures compId.Some? && (forall g :: g in ledgerGroups ==> g.compId != compId.value) ==>
        r == Failure(404, NoLedgerGroups)
      ensures r.Success? <==> compId.Some? && exists g :: g in ledgerGroups && g.compId == compId.value
      ensures r.Success? ==> compId.Some? && r.status == 200
      ensures r.Success? ==> r.value != [] && SortedByName(r.value)
      ensures r.Success? ==> multiset(r.value) == multiset(GroupsOf(ledgerGroups, compId.value))
      ensures r.Failure? ==> r.status == 400 || r.status == 404
    {
      if compId.None? {
        return Failure(400, InvalidCompanyId);
      }
      var rows := SortByName(GroupsOf(ledgerGroups, compId.value));
      if |rows| == 0 {
        forall g | g in ledgerGroups ensures g.compId != compId.value {
          var i :| 0 <= i < |ledgerGroups| && ledgerGroups[i] == g;
          assert LedgerGroupItem(g.ledgerGroupId, g.ledgerGroup) !in multiset(rows);
        }
        return Failure(404, NoLedgerGroups);
      }
      var first := rows[0];
      assert first in multiset(GroupsOf(ledgerGroups, compId.value));
      assert LedgerGroupRow(first.ledgerGroupId, first.ledgerGroup, compId.value) in ledgerGroups;
      r := Success(200, rows);
    }

    /**
     * GET /api/suppliers: the company comes from the query parameter,
     * falling back to the `company-id` header.
     */
    method ListSuppliers(queryCompanyId: Option<int>, headerCompanyId: Option<int>) returns (r: Reply<set<SupplierRow>>)
      ensures r.Failure? <==> queryCompanyId.None? && headerCompanyId.None?
      ensures r.Failure? ==> r == Failure(400, CompanyIdRequired)
      ensures r.Success? ==> r.status == 200
      ensures r.Success? ==>
        var c := if queryCompanyId.Some? then queryCompanyId.value else headerCompanyId.value;
        forall row :: row in r.value <==> row.compId == c && row in suppliers.Values
    {
      var companyId := if queryCompanyId.Some? then queryCompanyId else headerCompanyId;
      if companyId.None? {
        return Failure(400, CompanyIdRequired);
      }
      var rows := CompanyRows(suppliers, companyId.value);
      r := Success(200, rows);
    }

    /** GET /api/suppliers/:id: the row with this SupplierId, of whichever company. */
    method GetSupplier(id: int) returns (r: Reply<SupplierRow>)
      requires Valid()
      ensures r.Success? <==> id in suppliers
      ensures r.Success? ==> r.status == 200 && r.value == suppliers[id] && r.value.supplierId == id
      ensures r.Failure? ==> r == Failure(404, SupplierNotFound)
    {
      if id in suppliers {
        r := Success(200, suppliers[id]);
      } else {
        r := Failure(404, SupplierNotFound);
      }
    }

    /**
     * POST /api/suppliers. `storageId` is the SupplierId the storage gives the
     * new row, or None when it gives none; the primary key refuses a taken one.
     */
    method CreateSupplier(body: SupplierBody, now: int, storageId: Option<int>) returns (r: Reply<int>)
      requires Valid()
      modifies this`suppliers
      ensures Valid()
      ensures !old(CityExists(body.city)) ==> r == Failure(400, InvalidCityCode)
      ensures old(CityExists(body.city)) && !r.Success? ==> r == Failure(500, ErrorCreatingSupplier)
      ensures r.Failure? ==> suppliers == old(suppliers) && (r.status == 400 || r.status == 500)
      ensures r.Success? <==> old(CityExists(body.city)) && storageId.Some? && storageId.value !in old(suppliers)
      ensures r.Success? ==> r.status == 201 && r.value == storageId.value
      ensures r.Success? ==> suppliers == old(suppliers)[r.value := NewRow(r.value, body, now)]
    {
      if !CityExists(body.city) {
        return Failure(400, InvalidCityCode);
      }
      if storageId.None? || storageId.value in suppliers {
        return Failure(500, ErrorCreatingSupplier);
      }
      suppliers := suppliers[storageId.value := NewRow(storageId.value, body, now)];
      r := Success(201, storageId.value);
    }

    /** POST /api/login: plaintext comparison against the first active user with that name. */
    method Login(username: Option<string>, password: Option<string>) returns (r: Reply<LoginUser>)
      ensures Falsy(username) || Falsy(password) ==> r == Failure(400, CredentialsRequired)
      ensures !Falsy(username) && !Falsy(password) && FirstActiveUser(users, username.value) == -1 ==>
        r == Failure(401, UnknownOrInactiveUser)
      ensures (!Falsy(username) && !Falsy(password) && FirstActiveUser(users, username.value) != -1 &&
        users[FirstActiveUser(users, username.value)].pwd != password.value) ==> r == Failure(401, InvalidPassword)
      ensures r.Failure? ==> r.status == 400 || r.status == 401
      ensures r.Success? <==> (!Falsy(username) && !Falsy(password) &&
        exists i :: 0 <= i < |users| && i == FirstActiveUser(users, username.value) && users[i].pwd == password.value)
      ensures r.Success? ==> (r.status == 200 &&
        exists i :: 0 <= i < |users| && users[i].userName == username.value && users[i].isActive == "Y" &&
          users[i].pwd == password.value && r.value == UserInfo(users[i]))
      ensures r.Success? ==> r == Success(200, UserInfo(users[FirstActiveUser(users, username.value)]))
    {
      if Falsy(username) || Falsy(password) {
        return Failure(400, CredentialsRequired);
      }
      var i := FirstActiveUser(users, username.value);
      if i == -1 {
        return Failure(401, UnknownOrInactiveUser);
      }
      var user := users[i];
      if user.pwd != password.value {
        return Failure(401, InvalidPassword);
      }
      r := Success(200, UserInfo(user));
    }

    /**
     * PUT /api/suppliers/:id. The header check comes first, then the
     * company-scoped existence check, then the city check; only then is the
     * row rewritten.
     */
    method UpdateSupplier(id: int, companyId: Option<int>, body: SupplierBody, now: int) returns (r: Reply<int>)
      requires Valid()
      modifies this`suppliers
      ensures Valid()
      ensures companyId.None? ==> r == Failure(400, CompanyIdRequiredInHeaders)
      ensures companyId.Some? && !(id in old(suppliers) && old(suppliers)[id].compId == companyId.value) ==>
        r == Failure(404, NotFoundForCompany)
      ensures (companyId.Some? && id in old(suppliers) && old(suppliers)[id].compId == companyId.value &&
        !CityExists(body.city)) ==> r == Failure(400, InvalidCityCode)
      ensures r.Failure? ==> suppliers == old(suppliers)
      ensures r.Success? <==> (companyId.Some? && id in old(suppliers) &&
        old(suppliers)[id].compId == companyId.value && old(CityExists(body.city)))
      ensures r.Success? ==> r == Success(200, id) && companyId.Some? && CityExists(body.city)
      ensures r.Success? ==> id in old(suppliers) && old(suppliers)[id].compId == companyId.value
      ensures r.Success? ==> suppliers == old(suppliers)[id := ApplyUpdate(old(suppliers)[id], body, now)]
    {
      if companyId.None? {
        return Failure(400, CompanyIdRequiredInHeaders);
      }
      if !(id in suppliers && suppliers[id].compId == companyId.value) {
        return Failure(404, NotFoundForCompany);
      }
      if !CityExists(body.city) {
        return Failure(400, InvalidCityCode);
      }
      suppliers := suppliers[id := ApplyUpdate(suppliers[id], body, now)];
      r := Success(200, id);
    }
  }
}
