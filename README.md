# Ledger Master — verified model of its stateful core

Ledger Master is a small mobile data-entry app for supplier/ledger accounts, backed by a thin REST API over a SQL database. This project models three parts of it in Dafny and proves properties about them:

1. **`FormDataPolyfill`** (`project/utils/formDataPolyfill.ts`) is an ordered multimap kept in one list of `(name, value)` pairs. `PairList.dfy` defines the list-level meaning of each array expression the class uses (`find`, `findIndex`, `filter`, `map`, `some`). `FormData.dfy` is the class: `Append`, `Delete` and `Set` change its `data` field, and the queries read it. Values are a type parameter `V`, which stands for `string | Blob`.
2. **The supplier/ledger API** (`server.js`). The tables are fields of a `Database` object:
   - `suppliers`, a map keyed by SupplierId;
   - `cities`, a map from CityId to a row with an IsActive flag;
   - `ledgerGroups`, a list of rows;
   - `users`, a list of rows.

   Each handler is a method that runs the server's checks in the server's order and returns a `Reply` tagged with an HTTP status. Only `CreateSupplier` and `UpdateSupplier` write, and they write only `suppliers`. `Tables.dfy` holds the row types and the pure parts of the SQL: the WHERE filters, the ORDER BY, and the rows that the INSERT and the UPDATE produce. It also holds lemmas about company scoping.
3. **The inline editor of a supplier list item** (`project/components/SupplierListItem.tsx`). `SupplierEdit.dfy` has two total record-to-record functions. The first builds the `editedData` buffer from the stored record, with its defaults. The second builds the `updatedData` payload from the buffer, with its own fallbacks. `SupplierListItem.dfy` is the component's state (`isEditing`, `editedData`) as a class. Its methods are the handlers that change that state.

Request values that the server tests for truthiness are `Option`s, with None meaning absent or empty. This covers the query parameter, the headers and the login credentials. The `City` body field is not tested for truthiness: the server passes it as it is to an existence query. There, None stands for a body with no City, which no City row matches. A company id is None when it is missing, empty or (for the ledger-group path) not numeric. Otherwise it is the integer that `parseInt` gives. Timestamps (`GETDATE()`) are an explicit `now` parameter. The SupplierId that storage gives a new row is an explicit `storageId` parameter.

Where the prose design and the code disagree, the model follows the code:
- The create and update handlers check only that the City row **exists**, not that it is active (server.js:368, server.js:520). Only the cities list filters on `IsActive = 'Y'` (server.js:240).
- None of the modelled files normalises the Dr/Cr sign, validates mobile numbers or e-mail addresses, or trims text. The create and edit screens do these things (project/app/(tabs)/index.tsx:100-137, project/app/edit/[id].tsx:115-130), and they are outside this model. The inline editor sends `OpBalAmt` and `OpType` exactly as they are in the buffer, with no validation.
- A list item's payload always carries `ledgerGroupId = 1`, whatever the record holds. Its `city` is the buffer's City when that is non-zero, and 1 when the City is missing or 0.

## Model

| member | source | states |
|---|---|---|
| `PairList.Has` | project/utils/formDataPolyfill.ts:24-26 | `has(k)` holds exactly when some entry's key is `k` |
| `PairList.IndexOf` | project/utils/formDataPolyfill.ts:29 | `findIndex`: -1 exactly when no key matches; otherwise an index holding `k` with no earlier match |
| `PairList.Get` | project/utils/formDataPolyfill.ts:13-16 | `get(k)` is None (null) exactly when `k` is absent; otherwise it is the value at the first index holding `k` |
| `PairList.GetAll` | project/utils/formDataPolyfill.ts:18-22 | `getAll(k)` is non-empty exactly when `has(k)`, and it holds only values of entries keyed `k` |
| `PairList.GetAllComplete` | project/utils/formDataPolyfill.ts:18-22 | `getAll(k)` holds the value of every entry keyed `k` |
| `PairList.Without` | project/utils/formDataPolyfill.ts:9-11 | the list after `delete(k)` has no entry keyed `k` and holds only original entries |
| `PairList.Set` | project/utils/formDataPolyfill.ts:28-35 | when `k` is present, only the first matching index is overwritten with `(k, v)`: length and all other entries (later duplicates included) are unchanged; when absent, `(k, v)` is appended |
| `PairList.Keys` | project/utils/formDataPolyfill.ts:41-43 | `keys()` has the list's length and is its first projection, in order |
| `PairList.Values` | project/utils/formDataPolyfill.ts:45-47 | `values()` has the list's length and is its second projection, in order |
| `PairList.GetAllConcat` | project/utils/formDataPolyfill.ts:18-22 | `getAll` distributes over concatenation, so values come back in insertion order |
| `PairList.WithoutComplete` | project/utils/formDataPolyfill.ts:9-11 | `delete(k)` keeps every entry whose key is not `k` |
| `PairList.WithoutConcat` | project/utils/formDataPolyfill.ts:9-11 | `delete` distributes over concatenation, so kept entries keep their relative order |
| `PairList.WithoutIsSubsequence` | project/utils/formDataPolyfill.ts:9-11 | what `delete(k)` keeps is a subsequence of the original list |
| `PairList.GetIsFirstOfGetAll` | project/utils/formDataPolyfill.ts:13-22 | `get(k)` is `getAll(k)[0]` when `getAll(k)` is non-empty, and null otherwise |
| `PairList.WithoutKeepsOtherKeys` | project/utils/formDataPolyfill.ts:9-22 | `delete(k)` leaves `getAll(j)` and `get(j)` unchanged for every other key `j` |
| `PairList.WithoutAbsent` | project/utils/formDataPolyfill.ts:9-11 | deleting an absent key leaves the list unchanged |
| `PairList.AppendQueries` | project/utils/formDataPolyfill.ts:5-22 | after `append(k, v)`, `getAll(k)` gains `v` at its end; `get(k)` is unchanged when `k` was present and is `v` otherwise |
| `PairList.SetQueries` | project/utils/formDataPolyfill.ts:13-35 | after `set(k, v)`, `get(k) == v`; when `k` was present, `getAll(k)` is `v` followed by the old later duplicates; when absent, it is the old `getAll(k)` plus `v` |
| `PairList.SetReplacesFirst` | project/utils/formDataPolyfill.ts:29-31 | when the name is present, `set` swaps only the first value of `getAll` for the new one and keeps every later duplicate |
| `PairList.SetKeepsOtherKeys` | project/utils/formDataPolyfill.ts:28-35 | `set(k, v)` changes no other key's `get` or `getAll` |
| `FormData.FormDataPolyfill.constructor` | project/utils/formDataPolyfill.ts:3 | a new object holds no entries |
| `FormData.FormDataPolyfill.Append` | project/utils/formDataPolyfill.ts:5-7 | the new list is the old one with `(name, value)` added at the end; `getAll(name)` gains `value` at its end |
| `FormData.FormDataPolyfill.Delete` | project/utils/formDataPolyfill.ts:9-11 | afterwards `has(name)` is false; what remains is an order-preserving subsequence that holds every entry with another name |
| `FormData.FormDataPolyfill.Get` | project/utils/formDataPolyfill.ts:13-16 | the class's `get`: None exactly when no entry has the name; otherwise the value of an entry with that name (the first one, by `PairList.Get`) |
| `FormData.FormDataPolyfill.GetAll` | project/utils/formDataPolyfill.ts:18-22 | the class's `getAll`: non-empty exactly when `has`; it holds the value of every entry with the name and only such values |
| `FormData.FormDataPolyfill.Has` | project/utils/formDataPolyfill.ts:24-26 | the class's `has`: some entry of `data` has the name |
| `FormData.FormDataPolyfill.Keys` | project/utils/formDataPolyfill.ts:41-43 | the class's `keys()`: as long as `data`, and its names in order |
| `FormData.FormDataPolyfill.Values` | project/utils/formDataPolyfill.ts:45-47 | the class's `values()`: as long as `data`, and its values in order |
| `FormData.FormDataPolyfill.Set` | project/utils/formDataPolyfill.ts:28-35 | afterwards `get(name) == value`; when `name` was present, the length is unchanged and only the first match is replaced; when absent, this is exactly `append` |
| `Tables.CompanyRows` | server.js:300-329 | the supplier list query returns every row whose CompId is the company, and only rows of the table with that CompId |
| `Tables.ApplyUpdate` | server.js:528-584 | the UPDATE rewrites the body's columns and City and sets LastUpdate to now; SupplierId, CompId and OpDt are kept |
| `Tables.NewRow` | server.js:376-419 | the INSERT writes the body's columns, CompId and OpDt under the storage-given id, with LastUpdate = now |
| `Tables.ActiveCities` | server.js:237-241 | the cities query returns exactly the (CityId, CITY) pairs of rows with IsActive = 'Y' |
| `Tables.GroupsOf` | server.js:263-266 | the ledger-group query holds every group of the company, and only groups of that company |
| `Tables.NameLe` | server.js:267 | the name order of the ledger-group sort: a prefix sorts first, and the first characters of two ordered names never descend |
| `Tables.NameLeAntisymmetric` | server.js:267 | two names ordered both ways are equal |
| `Tables.NameLeTotal` | server.js:267 | the name order used for ORDER BY LEDGERGROUP is total |
| `Tables.InsertByName` | server.js:267 | inserting into a name-sorted list keeps it sorted and adds exactly one element |
| `Tables.SortByName` | server.js:263-268 | ORDER BY LEDGERGROUP returns a sorted permutation of the matching groups |
| `Tables.FirstActiveUser` | server.js:450-461 | `recordset[0]` of the login query: -1 exactly when no active user has the name; otherwise the first active user with it |
| `Tables.UpdateKeepsOtherCompanies` | server.js:504-584 | updating a row of one company leaves every other company's supplier list unchanged |
| `Tables.UpdateWithinCompany` | server.js:559-584 | within the row's own company, an update replaces the old row with the new one and changes nothing else |
| `Tables.InsertScoping` | server.js:408-419 | an insert under a fresh key adds the row to its own company's list and to no other |
| `LedgerApi.Falsy` | server.js:442 | the `!x` test on a credential: falsy exactly when the value is missing or the empty string |
| `LedgerApi.Database.CityExists` | server.js:367-369 | the create/update city check passes for every City row's id, active or not, and only for ids of City rows |
| `LedgerApi.UserInfo` | server.js:469-479 | the login user object carries UserId, IsAllComp and RightsCompId, no password, and `companyId = RightsCompId` |
| `LedgerApi.Database.ListCities` | server.js:235-247 | always 200, with exactly the active cities |
| `LedgerApi.Database.ListLedgerGroups` | server.js:250-284 | 400 for a missing or non-numeric id; 200 exactly when the id is numeric and the company has a group, else 404; on 200, a non-empty, name-sorted permutation of that company's groups |
| `LedgerApi.Database.ListSuppliers` | server.js:286-343 | 400 exactly when both query parameter and header are absent; otherwise 200 with exactly the rows of the company, the query parameter winning over the header |
| `LedgerApi.Database.GetSupplier` | server.js:346-361 | 200 with the row of that SupplierId, whatever its company, exactly when one exists; otherwise 404 |
| `LedgerApi.Database.CreateSupplier` | server.js:364-434 | 400 and no change when City names no City row (active or not); with a valid City, 500 and no change exactly when storage gives no free id; else 201, and the table gains exactly the new row |
| `LedgerApi.Database.Login` | server.js:437-489 | 400 for a missing username or password; 401 "Invalid username or user is inactive" when no active user has the name; 401 "Invalid password" when the first such user's Pwd differs; 200 exactly otherwise, with the info of that first active user |
| `LedgerApi.Database.UpdateSupplier` | server.js:492-597 | checks in order: missing header gives 400, no row of this id under this company gives 404, unknown city gives 400; every rejection leaves the table unchanged; 200 exactly when all three checks pass, and then only that row changes, through `ApplyUpdate` |
| `SupplierEdit.InitialBuffer` | project/components/SupplierListItem.tsx:36-51 | Supplier and City are copied; each optional text becomes the stored text or `''`; OpBalAmt defaults to 0; OpType and Isactive keep a stored non-empty value and become 'Dr' and 'Y' when missing or empty |
| `SupplierEdit.SavePayload` | project/components/SupplierListItem.tsx:55-71 | each buffer field goes to its form key; city is never 0 (falls back to 1); openingBalance and balanceType pass through with no sign adjustment; isActive holds exactly when Isactive is 'Y'; ledgerGroupId is always 1 |
| `SupplierEdit.InitialBufferIdempotent` | project/components/SupplierListItem.tsx:36-51 | the defaults are fixpoints: a buffer's own values read back in as a record give the same buffer (the component never takes this path itself) |
| `SupplierEdit.SavePayloadRoundTrip` | project/components/SupplierListItem.tsx:55-71 | with a non-zero city and a Y/N flag, the buffer can be read back from the payload; the fallbacks are the only loss |
| `SupplierEdit.UntouchedSave` | project/components/SupplierListItem.tsx:36-71 | saving an unedited record sends isActive = true for a missing flag, 'Dr' for a missing OpType, city 1 for a missing or zero City, and ledger group 1 |
| `SupplierListItem.WithText` | project/components/SupplierListItem.tsx:84-151 | typing into one input sets that field and leaves every other field of the buffer unchanged |
| `SupplierListItem.ListItem.constructor` | project/components/SupplierListItem.tsx:35-51 | a new item is not editing, and its buffer is `InitialBuffer` of the record |
| `SupplierListItem.ListItem.StartEditing` | project/components/SupplierListItem.tsx:193-196 | the pencil button enters edit mode and keeps the buffer |
| `SupplierListItem.ListItem.CancelEditing` | project/components/SupplierListItem.tsx:168-171 | the close button leaves edit mode and does not reset the buffer |
| `SupplierListItem.ListItem.ChangeText` | project/components/SupplierListItem.tsx:84-151 | an input change updates that one buffer field and not the mode |
| `SupplierListItem.ListItem.ChangeOpeningBalance` | project/components/SupplierListItem.tsx:153-157 | the balance input stores the parsed number, or 0 when parsing gives NaN or 0 |
| `SupplierListItem.ListItem.Save` | project/components/SupplierListItem.tsx:53-77 | sends `SavePayload` of the buffer for this SupplierId; leaves edit mode only when `onUpdate` succeeds, and otherwise stays as it was |

## Left out

- Rendering, styling, alerts and navigation: the JSX, `StyleSheet` and `Alert.alert` calls, and the form-section components. These only display values and forward field changes.
- The login screen, AsyncStorage session flags, the axios wrappers (`apiService.ts`, `companyUtils.ts`) and the bundler configuration. These are I/O and platform state.
- Server plumbing: CORS and Express wiring, the database connection, the table and sequence bootstrap, the unused `cityMapping`, and the companies endpoints.
- Database failures: the 500 replies of every `catch` block, except the create case below. The model does not fail where the database would.
- LedgerApi.Database.CreateSupplier: the visible code does not decide which SupplierId a new row gets. The INSERT omits a non-identity primary key, and the reply uses `SCOPE_IDENTITY()`. The id is therefore a parameter. A missing id or a taken one is modelled as the INSERT failing (500), and the reply is assumed to report the id the row was stored under.
- SQL semantics: column widths and truncation, `DECIMAL(18,2)` rounding, `NOLOCK`, NULL columns (text columns are plain strings on the server side), date parsing of `OpDt`, and `parseInt`/`isNaN` coercion. Ids are integers, and amounts and timestamps are integers.
- Tables.NameLe: ORDER BY LEDGERGROUP follows the database collation. The model sorts by character code and fixes no order among equal names.
- LedgerApi.Database.ListSuppliers: rows come back as a set because the query has no ORDER BY. The client-side sort by LastUpdate is in a screen outside this model.
- Users are matched by exact string equality on UserName. The login query's collation and case rules are not modelled, and rows come back in table order.
- The `Invalid city code` message is modelled without the interpolated city value.
- `entries()`, `forEach` and the `Blob` value type of the polyfill. These are iterator and callback protocols; values are an uninterpreted type `V`.
- SupplierListItem.ListItem.ChangeOpeningBalance: `parseFloat` is floating-point parsing, so the method takes its (integer) result as input.
- `onUpdate` is a callback the model cannot see. `Save` takes its outcome as a boolean, and the rejected case's alert is not modelled.
- React's `useState` initialiser runs only on first render. The model builds the buffer once, in the constructor, and does not model a change of the `supplier` prop afterwards.
