# Account email key-merge and payment-method JSON conversion (Kill Bill)

This project models two pure pieces of logic from Kill Bill's account and JAX-RS layers:

1. **The email key-merge of `AuditedAccountEmailDao`** (module `AccountEmails`, file
   `account_emails.dfy`). `addEmail` and `removeEmail` load an account's current emails and put
   them into a map keyed by the email address. A later email with the same address overwrites an
   earlier one. They then upsert or erase one address and pass the map's values to the shared
   audited save routine. The model takes the loaded list as a parameter. It models the load loop
   as a recursive function (`KeyByEmail`) and as the loop itself (`KeyCurrentEmails`). It models
   the upsert and erase as map operations (`Upsert`, `Erase`, `AddMerge`, `RemoveMerge`). It
   models the collection handed to the save routine as a set (`AddEmail`, `RemoveEmail`), because
   `HashMap.values()` has no specified order. The save routine is a sink: the model states what it
   receives, not what it does with it.
2. **The conversions of `PaymentMethodJson`** (module `JsonPaymentMethods`, file
   `payment_method_json.dfy`).
   - `toPaymentMethodJson` derives `isDefault` and renders each plugin property's value with
     `toString()`.
   - `toPaymentMethod` returns an anonymous payment method whose accessors read the JSON fields on
     demand. It is modelled as the datatypes `JsonBackedPaymentMethod` and `JsonBackedPlugin`,
     whose member functions are those accessors.
   - A nullable Java field or list element is an `Option`, with `None` for null. A
     `NullPointerException` is `Result.Failure(NullPointer)`. Null top-level arguments are not
     modelled (see "## Left out").
   - Identifiers are opaque strings, so a UUID's `toString()` and `UUID.fromString` are the
     identity.
   - A property value is a Java object: `PropertyValue` is either a string, which renders as
     itself, or some other object, which renders as its `toString()` text.

`wrappers.dfy` holds the `Option` and `Result` datatypes both modules use.

Behaviour the code shows that the model keeps:

- `toPaymentMethodJson` throws when the payment method's id or the account's id is null. It also
  throws when the plugin's property list holds a null element or a property with a null value.
  Property lists are sequences of nullable elements on both sides.
- The JSON `pluginInfo` is null both when the plugin detail is null and when the detail's property
  list is null. In the second case the external payment-method id is dropped as well.
- On the way back, `getExternalPaymentMethodId()` and `getProperties()` dereference `pluginInfo`.
  So a payment method converted from JSON whose plugin info is null throws from those accessors
  rather than returning null. `ToPaymentMethodExternalId` and `ToPaymentMethodProperties` state this,
  and `PaymentMethodRoundTrip` states it for the round trip. `getProperties()`
  also throws on a null element of a JSON property list.
- Loading the current emails is intended to happen inside the caller's transaction. The code loads
  through the DAO's own handle (`AuditedAccountEmailDao.java:69`, `:91`), not the transactional
  one. Either way the model receives the loaded list as an input.

## Model

| member | source | states |
|---|---|---|
| `AccountEmails.KeyIgnoresIdentity` | account/src/main/java/com/ning/billing/account/dao/AuditedAccountEmailDao.java:106-109 | The natural key of a record is its email address: changing its id or account keeps the key, and two records share a key exactly when their addresses are equal |
| `AccountEmails.KeyByEmail` | account/src/main/java/com/ning/billing/account/dao/AuditedAccountEmailDao.java:69-73 | The keyed map holds exactly the loaded addresses, every entry sits under its own address and is a loaded email, and each address maps to the last email carrying it in load order |
| `AccountEmails.KeyCurrentEmails` | account/src/main/java/com/ning/billing/account/dao/AuditedAccountEmailDao.java:70-73 | The put-loop over the loaded emails builds the last-write-wins keyed map |
| `AccountEmails.Upsert` | account/src/main/java/com/ning/billing/account/dao/AuditedAccountEmailDao.java:74 | After the put, the email is under its address, the key set gains that address, every other entry is unchanged, and well-keyedness is kept |
| `AccountEmails.Erase` | account/src/main/java/com/ning/billing/account/dao/AuditedAccountEmailDao.java:96 | After the remove, the address is absent, the key set loses only it, the remaining entries are unchanged, and well-keyedness is kept |
| `AccountEmails.AddMerge` | account/src/main/java/com/ning/billing/account/dao/AuditedAccountEmailDao.java:69-74 | The added email is the entry under its address; key set = loaded addresses ∪ {address}; every other entry is a loaded email, and the last loaded email of each other address is kept |
| `AccountEmails.RemoveMerge` | account/src/main/java/com/ning/billing/account/dao/AuditedAccountEmailDao.java:91-96 | The removed address is absent; key set = loaded addresses \ {address}; every entry is a loaded email, and the last loaded email of each other address is kept |
| `AccountEmails.WellKeyedValuesDistinct` | account/src/main/java/com/ning/billing/account/dao/AuditedAccountEmailDao.java:70-77 | The values of a map keyed by address have pairwise-distinct addresses, and their addresses are exactly the keys |
| `AccountEmails.WellKeyedValuesCount` | account/src/main/java/com/ning/billing/account/dao/AuditedAccountEmailDao.java:76-77 | The values of a map keyed by address are as many as its keys |
| `AccountEmails.AddEmail` | account/src/main/java/com/ning/billing/account/dao/AuditedAccountEmailDao.java:69-77 | The collection saved by `addEmail` contains the new email and no other record with its address. Every other member is a loaded email. Its addresses are the loaded ones plus the new one, each exactly once, and its size is the number of those addresses. For every other address it holds the last loaded email with that address |
| `AccountEmails.RemoveEmail` | account/src/main/java/com/ning/billing/account/dao/AuditedAccountEmailDao.java:91-99 | The collection saved by `removeEmail` holds only loaded emails without the removed address. Its addresses are the loaded ones minus that address, each exactly once, and its size is the number of those addresses. For every remaining address it holds the last loaded email with that address |
| `AccountEmails.AddHasExactlyOneEntryForKey` | account/src/main/java/com/ning/billing/account/dao/AuditedAccountEmailDao.java:70-74 | After the add-merge exactly one entry carries the added address |
| `AccountEmails.AddReplacesSameKey` | account/src/main/java/com/ning/billing/account/dao/AuditedAccountEmailDao.java:72-74 | A loaded email with the added address but a different id or account is replaced, not kept beside the new one, and the address set does not grow |
| `AccountEmails.AddIsBulkMergeWithAppended` | account/src/main/java/com/ning/billing/account/dao/AuditedAccountEmailDao.java:70-74 | Adding one email gives the same keyed map as loading the current list with that email appended |
| `AccountEmails.AddIsIdempotent` | account/src/main/java/com/ning/billing/account/dao/AuditedAccountEmailDao.java:74 | Putting the same email twice gives the same keyed map as putting it once |
| `AccountEmails.ReloadRebuildsKeyedMap` | account/src/main/java/com/ning/billing/account/dao/AuditedAccountEmailDao.java:69-77 | Loading back the values of a map keyed by address, in any order and with repeats, rebuilds that same map |
| `AccountEmails.ReAddToReloaded` | account/src/main/java/com/ning/billing/account/dao/AuditedAccountEmailDao.java:69-74 | Reloading a keyed collection that already holds an email under its address, in any order, and putting that email again gives back the same keyed collection |
| `AccountEmails.AddTwiceAcrossCalls` | account/src/main/java/com/ning/billing/account/dao/AuditedAccountEmailDao.java:63-82 | A second `addEmail` of the same email, run against what the first one saved in any load order, builds the same keyed map |
| `AccountEmails.RemoveAbsentIsNoop` | account/src/main/java/com/ning/billing/account/dao/AuditedAccountEmailDao.java:92-96 | Removing an address that is not loaded leaves the keyed map and the saved collection as loaded. This is not an error |
| `AccountEmails.RemoveAbsentSavesCurrent` | account/src/main/java/com/ning/billing/account/dao/AuditedAccountEmailDao.java:91-99 | When the loaded addresses are distinct, removing an absent address saves exactly the loaded emails |
| `AccountEmails.RemoveUndoesAdd` | account/src/main/java/com/ning/billing/account/dao/AuditedAccountEmailDao.java:70-96 | Erasing an address after adding an email with it equals removing that address from the loaded list |
| `AccountEmails.OnlyTheAddressDecides` | account/src/main/java/com/ning/billing/account/dao/AuditedAccountEmailDao.java:48-109 | Two emails with the same address are merged as one record whatever their ids: they remove the same entry, add to the same key set and replace each other |
| `JsonPaymentMethods.ToJsonProperties` | jaxrs/src/main/java/com/ning/billing/jaxrs/json/PaymentMethodJson.java:61-66 | The property transform throws exactly when some element or its value is null. Otherwise the JSON list has the same length and order, and each entry is non-null with the same key and isUpdatable and the value's string form |
| `JsonPaymentMethods.ToPaymentMethodJson` | jaxrs/src/main/java/com/ning/billing/jaxrs/json/PaymentMethodJson.java:54-71 | Throws exactly when the payment-method id or account id is null, or a present property list has a null element or a null value. Otherwise the ids and plugin name pass through, and isDefault is true iff the account's payment-method id is non-null and equals the payment method's id. pluginInfo is null iff the detail or its property list is null, and otherwise carries the external id and the rendered properties |
| `JsonPaymentMethods.FromJsonProperties` | jaxrs/src/main/java/com/ning/billing/jaxrs/json/PaymentMethodJson.java:110-115 | The loop back to key/value infos throws exactly when some element is null. Otherwise it keeps length and order and copies key, value (as a string object) and isUpdatable into a non-null entry |
| `JsonPaymentMethods.ToPaymentMethodFixedAnswers` | jaxrs/src/main/java/com/ning/billing/jaxrs/json/PaymentMethodJson.java:73-103 | The converted payment method is always active; its plugin is never the default payment method and `getValueString` is always null |
| `JsonPaymentMethods.ToPaymentMethodFields` | jaxrs/src/main/java/com/ning/billing/jaxrs/json/PaymentMethodJson.java:79-90 | `getId` / `getAccountId` are null exactly when the JSON field is null and otherwise return it; `getPluginName` returns the JSON plugin name |
| `JsonPaymentMethods.ToPaymentMethodExternalId` | jaxrs/src/main/java/com/ning/billing/jaxrs/json/PaymentMethodJson.java:105-107 | `getExternalPaymentMethodId()` of the converted payment method throws exactly when pluginInfo is null, and otherwise returns pluginInfo's external payment id |
| `JsonPaymentMethods.ToPaymentMethodProperties` | jaxrs/src/main/java/com/ning/billing/jaxrs/json/PaymentMethodJson.java:108-118 | `getProperties()` throws exactly when pluginInfo is null or its property list holds a null element. It returns null exactly when pluginInfo's property list is null. Otherwise it returns a list of the same length and order with key, value and isUpdatable copied |
| `JsonPaymentMethods.PropertiesRoundTrip` | jaxrs/src/main/java/com/ning/billing/jaxrs/json/PaymentMethodJson.java:61-115 | A property list with no null element or value, taken to JSON and back, keeps length and order. Each entry comes back with the same key and isUpdatable and with its value replaced by a string object holding the value's string form |
| `JsonPaymentMethods.JsonPropertiesRoundTrip` | jaxrs/src/main/java/com/ning/billing/jaxrs/json/PaymentMethodJson.java:61-115 | A JSON property list with no null element or value, read back and rendered again, is unchanged |
| `JsonPaymentMethods.RenderingIsStable` | jaxrs/src/main/java/com/ning/billing/jaxrs/json/PaymentMethodJson.java:61-66 | Values are stringified once: rendering a rendered-and-read-back list gives the same JSON list |
| `JsonPaymentMethods.PaymentMethodRoundTrip` | jaxrs/src/main/java/com/ning/billing/jaxrs/json/PaymentMethodJson.java:54-121 | After a successful conversion to JSON and back: id, account id and plugin name survive and the method is active. `getProperties()` and `getExternalPaymentMethodId()` each throw exactly when the detail or its property list was null. Otherwise the external id survives, and the property list keeps its length and order. Each entry comes back with the same key and isUpdatable and with its value replaced by a string object holding its string form |

## Left out

- `getEmails` and `saveEmails` (`AuditedAccountEmailDao.java:52-60`) only delegate to `loadEntities` and `saveEntities` of `AuditedCollectionDaoBase`. `AuditedCollectionDaoBase` is not part of this model.
- `saveEntitiesFromTransaction`, the insert/update/delete diff it computes and the audit-history rows it writes are not modelled. They live in `AuditedCollectionDaoBase`, so the model stops at the collection handed to it.
- Transactions are not modelled: `inTransaction`, `TransactionStatus`, `IDBI.onDemand`, `transmogrifyDao` / `Transmogrifier.become`, and the question of which handle performs the load. They are calls into JDBI.
- Concurrent `addEmail` / `removeEmail` on the same account are not modelled. They are a concurrency concern.
- `getEquivalenceObjectFor` (`AuditedAccountEmailDao.java:48-50`) returns the record itself and is not modelled. Only `AuditedCollectionDaoBase` uses it, and that class is not part of this model.
- `test()`, `getTableName()` and `getSqlDao()` are not modelled. They are trivial delegations or constants.
- `AccountEmails.AddEmail`, `AccountEmails.RemoveEmail`: a null `email` argument and a null element in the loaded list are not modelled. In the source they throw a `NullPointerException` at `AuditedAccountEmailDao.java:74` / `:96` and `:72` / `:94`. Emails and loaded lists here are never null.
- `JsonPaymentMethods.ToPaymentMethodJson`: a null `account` or `in` argument is not modelled. In the source it throws a `NullPointerException` at `PaymentMethodJson.java:56` or `:58`. Both arguments here are never null, so "throws exactly when" covers only their nullable fields and property lists.
- A null email address is not modelled. Addresses are non-null strings, although a `HashMap` would accept a null key.
- The order of `HashMap.values()` is not modelled. The saved collection is a set, and lemmas that reload it accept any order.
- `JsonPaymentMethods.ToPaymentMethodFields`: `UUID.fromString` is the identity on opaque id strings. The `IllegalArgumentException` it throws on a malformed id is not modelled.
- The `PaymentMethodKVInfo` constructor is not part of this model. `isUpdatable` is copied as a nullable Boolean, and a possible unboxing `NullPointerException` is not modelled.
- Jackson annotations, the no-argument constructors and the plain getters of the JSON classes are not modelled. They are serialization wiring; the model reads the datatype fields directly.
- Guava's `Collections2.transform` followed by the `ArrayList` copy is modelled as an eager map over the sequence. The copy forces every element, so a null element or value throws during the conversion.
