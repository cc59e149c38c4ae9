# Point-of-sale front-end: a verified model of its local logic

This project models the parts of a Vue/Pinia point-of-sale front-end that
decide things locally, and proves what they promise:

- the shopping **cart store**: line items keyed by product id, pricing
  getters, order type, vouchers and clearing;
- the **Philippine address** tables with their lookup helpers, and the
  four-level cascading selection (region → province → city → barangay);
- the **form validation engine**: ordered rule lists per field, first failure
  wins, `errors` and `touched` maps;
- the **validators and formatters**: the product rule table, image checks,
  e-mail and phone patterns, price bounds, customer search, creation and
  phone formatting;
- the **global store** (notifications, sidebar, theme) and the **auth
  store** (session, mock login, token verification), with `localStorage`
  as a shared `map<string, string>`;
- the **mock back-end and result classification** in the auth, order
  creation and product composables.

There is one module per source file. Pure code (the lookups, pricing folds,
filter builder and classifiers) is written as functions. Code that changes
state in place (the stores, the address selector, the validator and the
customer search refs) is written as classes whose methods say exactly what
they change. Small shared modules hold what several files use:

- `Wrappers` has `Option`.
- `Text` has the JavaScript string helpers `startsWith`, `includes` and
  ASCII `toLowerCase`.
- `Records` treats a JavaScript object literal as an association list, where
  lookup returns the first match.
- `Types` has the records of `src/types/index.ts` and `MutationResponse`.
- `Browser` has `localStorage`.

Some conventions hold across the modules:

- JavaScript truthiness is written out explicitly: `0`, `''`, `null` and
  `undefined` are falsy.
- Outputs of `Date.now`, `Math.random` and `btoa` are string parameters.
- `import.meta.env.DEV` is a boolean parameter.
- A GraphQL call's result is a `CallOutcome`: either it threw, or it
  returned a payload that may be missing.

## Model

| member | source | states |
|---|---|---|
| Cart.ShippingFee | src/stores/cart.ts:21-33 | not online gives 0. Online gives the table fee read with `\|\|`: express 1500, same_day 3000, and 500 for everything else, including pickup (whose table value 0 is falsy), '' and unknown methods. It is never below 500 when online. |
| Cart.ConvenienceFee | src/stores/cart.ts:35-45 | card costs 100, gcash and paymaya cost 50, cash and bank_transfer cost 0. Any code missing from the table gives 0. |
| Cart.Subtotal | src/stores/cart.ts:17-19 | the sum of price times quantity over the lines. SumAppend, SumUpdate and SumRemove characterise it. |
| Cart.TotalItems | src/stores/cart.ts:54-56 | the sum of the quantities. SumAppend, SumUpdate and SumRemove characterise it. |
| Cart.Total | src/stores/cart.ts:47-52 | subtotal plus both fees minus the voucher, with no clamping (TotalNotClamped) |
| Cart.TotalNotClamped | src/stores/cart.ts:47-52 | the total is subtotal + shipping + convenience − voucher with no clamping, so a voucher larger than the rest makes it negative |
| Cart.SumAppend | src/stores/cart.ts:17-19 | the subtotal and item-count folds split over concatenation |
| Cart.SumUpdate | src/stores/cart.ts:17-19 | replacing one line changes a fold by the new line's value minus the old one's |
| Cart.SumRemove | src/stores/cart.ts:17-19 | deleting one line lowers a fold by exactly that line's value |
| Cart.FindIndex | src/stores/cart.ts:79 | `findIndex` returns the first line with that product id, or none when no line has it |
| Cart.AddLine | src/stores/cart.ts:61-76 | the items after `addToCart`. AddExisting, AddNew, AddLineKeepsUnique, AddLineItemCount and AddLineSubtotal characterise it. |
| Cart.RemoveLine | src/stores/cart.ts:78-83 | the items after `removeFromCart`. RemoveLineIsFilter, RemoveAbsentId, RemoveLineTotals and RemoveLineKeepsUnique characterise it. |
| Cart.UpdateLine | src/stores/cart.ts:85-94 | the items after `updateQuantity`. UpdateLineCases, UpdateLineKeepsUnique and UpdateLineSubtotal characterise it. |
| Cart.AddLineKeepsUnique | src/stores/cart.ts:61-76 | adding keeps product ids unique, and afterwards the product is in the cart |
| Cart.AddExisting | src/stores/cart.ts:64-66 | when the id is present: the length is unchanged, that line's quantity grows by `quantity`, and every other line is untouched |
| Cart.AddNew | src/stores/cart.ts:67-75 | when the id is absent: exactly one new line with the given quantity is appended at the end |
| Cart.AddLineItemCount | src/stores/cart.ts:54-56 | adding raises the item count by exactly `quantity` |
| Cart.AddLineSubtotal | src/stores/cart.ts:17-19 | adding raises the subtotal by the line's unit price times `quantity`. The unit price is the one stored on the existing line, or the product's price for a new line. |
| Cart.RemoveLineIsFilter | src/stores/cart.ts:78-83 | with unique ids, removal equals filtering out that id, so the other lines keep their order |
| Cart.RemoveAbsentId | src/stores/cart.ts:80 | removing an absent id changes nothing |
| Cart.RemoveLineTotals | src/stores/cart.ts:78-83 | removal lowers the subtotal and the item count by exactly the removed line's amounts, or by 0 when the id is absent |
| Cart.RemoveLineKeepsUnique | src/stores/cart.ts:78-83 | after removal the ids stay unique and the removed id is gone |
| Cart.UpdateLineCases | src/stores/cart.ts:85-94 | an absent id means no change. A quantity ≤ 0 removes the line. Otherwise only that line's quantity is set, and the length and all other lines stay the same. |
| Cart.UpdateLineKeepsUnique | src/stores/cart.ts:85-94 | updating keeps product ids unique |
| Cart.UpdateLineSubtotal | src/stores/cart.ts:85-94 | the subtotal changes by the new line total minus the old one, or by minus the old one when the line is removed |
| Cart.CartStore.constructor | src/stores/cart.ts:7-14 | the cart starts empty and online, with no customer, address or voucher, and ids unique |
| Cart.CartStore.AddToCart | src/stores/cart.ts:61-76 | a left-out quantity means 1. Items become the added list and the ids stay unique. The subtotal and item count grow by the added amounts, and no other field changes. |
| Cart.CartStore.RemoveFromCart | src/stores/cart.ts:78-83 | items lose exactly the lines with that id, and nothing else changes |
| Cart.CartStore.UpdateQuantity | src/stores/cart.ts:85-94 | items become the updated list, ids stay unique, and nothing else changes |
| Cart.CartStore.SetCustomer | src/stores/cart.ts:96-98 | sets only the customer |
| Cart.CartStore.SetDeliveryAddress | src/stores/cart.ts:100-102 | sets only the delivery address |
| Cart.CartStore.SetPaymentMethod | src/stores/cart.ts:104-106 | sets only the payment method |
| Cart.CartStore.SetShippingMethod | src/stores/cart.ts:108-110 | sets only the shipping method |
| Cart.CartStore.SetOrderType | src/stores/cart.ts:112-118 | switching to walk-in clears the address and shipping method, so shipping costs 0. Switching to online keeps both. |
| Cart.CartStore.ApplyVoucher | src/stores/cart.ts:120-123 | stores the code and discount, and the total is then the sum of the fees minus the discount |
| Cart.CartStore.ClearCart | src/stores/cart.ts:125-134 | restores the initial state: empty and online, with voucher '' and 0. The total is then the 500 default shipping. |
| Cart.CartStore.Reset | src/stores/cart.ts:137-139 | `$reset` restores the same initial state |
| AddressData.GetProvinces | src/data/philippines-address.ts:520-522 | returns the region's list, or [] for an unknown region |
| AddressData.GetCities | src/data/philippines-address.ts:524-534 | never empty. Returns the table entry, or exactly `<code>_MAIN` and `<code>_OTHER` for an unknown province. |
| AddressData.GetBarangays | src/data/philippines-address.ts:494-543 | never empty. Returns the table entry, or the three default options POBLACION, BARANGAY_1 and OTHER_BARANGAY. |
| AddressData.GetPostalCode | src/data/philippines-address.ts:545-547 | '' for a barangay missing from the postal table, otherwise its four-digit code |
| AddressData.FindByCode | src/data/philippines-address.ts:549-551 | the first item whose code matches, or none when no item matches |
| AddressData.FindByValue | src/data/philippines-address.ts:553-555 | the first item whose value matches, or none when no item matches |
| AddressData.FindByCodeIsFindByValue | src/data/philippines-address.ts:549-555 | on a list where every value equals its code, the two searches agree |
| AddressData.CityListsWellFormed | src/data/philippines-address.ts:32-450 | every cities entry and every province list has value == code |
| AddressData.BarangayListsWellFormed | src/data/philippines-address.ts:453-498 | every barangay entry and the default list have value == code |
| AddressData.PostalCodesWellFormed | src/data/philippines-address.ts:501-517 | every postal code has four characters |
| AddressData.CitiesHasKey | src/data/philippines-address.ts:169-450 | the cities table holds exactly the keys of its seventeen regional blocks |
| AddressData.ListedProvincesHaveCities | src/data/philippines-address.ts:32-450 | every province listed under a region has its own cities entry, so `getCities` never falls back for it |
| AddressData.HelperListsValueIsCode | src/data/philippines-address.ts:11-543 | every list the helpers return has value == code |
| AddressData.FindAgreesOnHelperLists | src/data/philippines-address.ts:549-555 | on this data, `findByCode` and `findByValue` agree for every list a helper returns |
| AddressSelection.RunWatchers | src/composables/usePhilippinesAddress.ts:85-113 | a changed region clears province, city and barangay. A changed province clears city and barangay, and a changed city clears barangay. An unchanged field clears nothing. |
| AddressSelection.SetRegionStep | src/composables/usePhilippinesAddress.ts:85-94 | a new region clears the three dependents. Assigning the current region changes nothing. |
| AddressSelection.SetProvinceStep | src/composables/usePhilippinesAddress.ts:96-104 | keeps the region. A new province clears city and barangay, and assigning the current one changes nothing. |
| AddressSelection.SetCityStep | src/composables/usePhilippinesAddress.ts:106-113 | keeps region and province. A new city clears only the barangay. |
| AddressSelection.SetBarangayStep | src/composables/usePhilippinesAddress.ts:128-130 | sets only the barangay |
| AddressSelection.OrEmpty | src/composables/usePhilippinesAddress.ts:149-152 | a missing initial value becomes '' |
| AddressSelection.SetInitialValuesStep | src/composables/usePhilippinesAddress.ts:142-153 | the region is always the given one |
| AddressSelection.SetInitialValuesOutcome | src/composables/usePhilippinesAddress.ts:85-153 | the watchers run after all four writes. A changed region wipes the given province, city and barangay. A changed province wipes city and barangay, and a changed city wipes the barangay. With region and province unchanged, both stay as they were and the city is the given one. The given values survive only below unchanged parents. |
| AddressSelection.InitialValuesFromEmpty | src/composables/usePhilippinesAddress.ts:142-153 | from an empty selection, initial values with a region keep only that region |
| AddressSelection.ChangeInvalidates | src/composables/usePhilippinesAddress.ts:85-182 | changing region, province or city leaves the selection invalid until it is completed again |
| AddressSelection.IsValidSelection | src/composables/usePhilippinesAddress.ts:175-182 | all four codes are non-empty. ChangeInvalidates and SelectInOrder use it. |
| AddressSelection.SelectInOrder | src/composables/usePhilippinesAddress.ts:116-130 | choosing a new region, then a province, city and barangay, gives exactly those four codes |
| AddressSelection.ProvinceOptions | src/composables/usePhilippinesAddress.ts:42-45 | empty with no region, otherwise the region's provinces |
| AddressSelection.CityOptions | src/composables/usePhilippinesAddress.ts:47-50 | empty exactly when no province is selected. Otherwise it is the province's entry in the city table, or the two generated fallback cities when the table has none. |
| AddressSelection.BarangayOptions | src/composables/usePhilippinesAddress.ts:52-57 | empty exactly when no city is selected. Otherwise it is the city's entry in the barangay table, or the default barangays when the table has none. |
| AddressSelection.OptionName | src/composables/usePhilippinesAddress.ts:60-83 | '' for an empty or unknown code, otherwise the label of the first option with that code |
| AddressSelection.AddressNamesOf | src/composables/usePhilippinesAddress.ts:60-83 | each name is the label of its code in the list its parent selects (regions, the region's provinces, the province's cities, the city's barangays). A name is '' whenever its code or its parent's code is empty. |
| AddressSelection.PostalCodeOf | src/composables/usePhilippinesAddress.ts:185-188 | '' with no barangay or a barangay missing from the table, otherwise the table's code (four characters) |
| AddressSelection.AddressSelector.constructor | src/composables/usePhilippinesAddress.ts:22-27 | all four codes start empty |
| AddressSelection.AddressSelector.SetRegion | src/composables/usePhilippinesAddress.ts:116-118 | the state becomes the region step of the old state |
| AddressSelection.AddressSelector.SetProvince | src/composables/usePhilippinesAddress.ts:120-122 | the state becomes the province step of the old state |
| AddressSelection.AddressSelector.SetCity | src/composables/usePhilippinesAddress.ts:124-126 | the state becomes the city step of the old state |
| AddressSelection.AddressSelector.SetBarangay | src/composables/usePhilippinesAddress.ts:128-130 | the state becomes the barangay step of the old state |
| AddressSelection.AddressSelector.ResetSelection | src/composables/usePhilippinesAddress.ts:132-139 | all four codes are empty and the selection is invalid |
| AddressSelection.AddressSelector.SetInitialValues | src/composables/usePhilippinesAddress.ts:142-153 | the state becomes the initial-values step, watchers included |
| FormValidation.FirstFailure | src/composables/useFormValidation.ts:26-66 | none exactly when every rule passes. Otherwise the message of the first failing rule, and every earlier rule passes. |
| FormValidation.RuleCheck | src/composables/useFormValidation.ts:27-64 | one rule's checks in source order. RequiredComesFirst, the zero-bound lemmas, MinAppliesToZero and CustomOutcome characterise it. |
| FormValidation.RequiredRule | src/composables/useFormValidation.ts:28-30 | `required` fails exactly for null, undefined and '', with 'This field is required' |
| FormValidation.RequiredComesFirst | src/composables/useFormValidation.ts:27-31 | within one rule, a blank required value reports the required message before any other check |
| FormValidation.FalsyValueSkipsLengthAndPattern | src/composables/useFormValidation.ts:33-56 | a falsy value skips the length and pattern checks |
| FormValidation.ZeroMinLengthIsNoBound | src/composables/useFormValidation.ts:33 | a minLength of 0 behaves as no minLength |
| FormValidation.ZeroMaxLengthIsNoBound | src/composables/useFormValidation.ts:38 | a maxLength of 0 behaves as no maxLength |
| FormValidation.ZeroMinIsNoBound | src/composables/useFormValidation.ts:43 | a min of 0 behaves as no min |
| FormValidation.ZeroMaxIsNoBound | src/composables/useFormValidation.ts:48 | a max of 0 behaves as no max |
| FormValidation.MinAppliesToZero | src/composables/useFormValidation.ts:43-46 | a positive min rejects the number 0 but skips null and undefined |
| FormValidation.CustomOutcome | src/composables/useFormValidation.ts:58-63 | a custom `true` passes. A string becomes the message, and any other result gives 'Invalid value'. |
| FormValidation.FirstFailureAt | src/composables/useFormValidation.ts:26-66 | when rule i fails and all earlier rules pass, rule i's message is the one reported |
| FormValidation.FirstFailureAppend | src/composables/useFormValidation.ts:26-66 | the earlier rules' failure wins over the later rules' failure |
| FormValidation.Fields | src/composables/useFormValidation.ts:74 | the ruled fields are exactly the keys of the rule table |
| FormValidation.NoErrorsLeft | src/composables/useFormValidation.ts:109-118 | an errors map that holds only ruled fields and none of them is empty |
| FormValidation.FormValidator.constructor | src/composables/useFormValidation.ts:19-22 | starts with no errors and nothing touched |
| FormValidation.FormValidator.RulesFor | src/composables/useFormValidation.ts:25 | the field's rules, or none for a field without rules |
| FormValidation.FormValidator.ValidateField | src/composables/useFormValidation.ts:24-69 | returns true exactly when no rule fails. On failure the error entry holds the first message, and on success it is deleted; a field without rules always passes. No other entry changes. |
| FormValidation.FormValidator.ValidateForm | src/composables/useFormValidation.ts:71-84 | every ruled field is touched and validated without short-circuit. The errors record each field's first failure, and the result is true exactly when every field passes. |
| FormValidation.FormValidator.ValidateFieldOnBlur | src/composables/useFormValidation.ts:86-90 | touches the field and validates its value from the form data |
| FormValidation.FormValidator.ClearErrors | src/composables/useFormValidation.ts:92-95 | empties both errors and touched |
| FormValidation.FormValidator.ClearFieldError | src/composables/useFormValidation.ts:97-99 | deletes only that field's error |
| FormValidation.FormValidator.GetFieldError | src/composables/useFormValidation.ts:101-103 | an error is returned only for a touched field that has one |
| FormValidation.FormValidator.HasFieldError | src/composables/useFormValidation.ts:105-107 | true exactly when `getFieldError` gives a non-empty message |
| FormValidation.FormValidator.IsFormValid | src/composables/useFormValidation.ts:109-118 | true exactly when every field passes, and then the errors map is empty. On false it stopped at the first failing field: earlier fields are cleared, that field holds its first failing message, and later fields are untouched. |
| Validation.ProductRulesDistinct | src/utils/validation.ts:4-33 | the product rule table names each field once |
| Validation.NameRulesOutcome | src/utils/validation.ts:5-9 | an empty name is required. Below 2 characters it is too short and above 100 too long, each with its own message. |
| Validation.NameAccepts | src/utils/validation.ts:5-9 | a name passes exactly when it has 2 to 100 characters |
| Validation.DescriptionRulesOutcome | src/utils/validation.ts:10-12 | a description fails only above 500 characters, and a missing one passes |
| Validation.PriceRulesOutcome | src/utils/validation.ts:19-31 | a price below 1 gets the first message and one above 100000000 the second; otherwise it passes |
| Validation.PriceCheck | src/utils/validation.ts:22-30 | the price rule's custom check. PriceRulesOutcome and PriceAccepts characterise it. |
| Validation.PriceAccepts | src/utils/validation.ts:19-31 | a price passes exactly when 1 ≤ cents ≤ 100000000 |
| Validation.MissingPrice | src/utils/validation.ts:20 | a blank price is reported as required |
| Validation.ValidateImageFile | src/utils/validation.ts:36-55 | a type other than jpeg, png, webp or jpg is rejected first. Then a size above 5·1024·1024 is rejected. Valid exactly otherwise, and a valid file carries no error. |
| Validation.ImageFileBoundary | src/utils/validation.ts:36-55 | exactly 5 MiB is accepted and one byte more is rejected. A bad type is reported even when the size is also too large. |
| Validation.EmailPatternIsValidEmail | src/utils/validation.ts:58-61 | the regex shape matches exactly the addresses with no whitespace, exactly one '@', a non-empty local part, and a domain with a '.' that is neither its first nor its last character |
| Validation.EmailHasNoSpace | src/utils/validation.ts:58-61 | a valid address has no whitespace and only one '@' |
| Validation.IsValidEmail | src/utils/validation.ts:58-61 | the email pattern, stated as a predicate. EmailPatternIsValidEmail proves it equal to the regex, and EmailHasNoSpace gives its shape. |
| Validation.StripSeparators | src/utils/validation.ts:66 | removing spaces, '-', '(' and ')' leaves none of them, and a string without them is unchanged |
| Validation.StripIdempotent | src/utils/validation.ts:66 | stripping twice is stripping once |
| Validation.PhonePatternByLength | src/utils/validation.ts:65 | the regex is an optional +63, 63 or 0 prefix followed by ten digits that start with 8 or 9 |
| Validation.PhoneIgnoresSeparator | src/utils/validation.ts:64-67 | inserting a separator anywhere never changes validity |
| Validation.PhoneForms | src/utils/validation.ts:64-67 | ten mobile digits are valid bare and with each of the prefixes 0, 63 and +63 |
| Validation.IsValidPhoneNumber | src/utils/validation.ts:64-67 | the phone pattern after stripping separators. PhonePatternByLength, PhoneIgnoresSeparator and PhoneForms characterise it. |
| Validation.PriceInPesosAgrees | src/utils/validation.ts:70-72 | a price in pesos is valid exactly when its cents pass the priceCents rule |
| Validation.IsValidPrice | src/utils/validation.ts:70-72 | `0 < price <= 1000000` over exact reals. PriceInPesosAgrees ties it to the cents rule. |
| Customers.Filter | src/composables/useCustomers.ts:163-174 | `Array.filter` keeps exactly the customers the test accepts, from the input list |
| Customers.FilterAppend | src/composables/useCustomers.ts:163-174 | filtering respects concatenation, so list order is kept |
| Customers.EmailSearch | src/composables/useCustomers.ts:163-168 | the mock email search's filter. EmailSearchFinds and EmailSearchIgnoresCase characterise it. |
| Customers.PhoneSearch | src/composables/useCustomers.ts:169-174 | the mock phone search's filter. PhoneSearchFinds characterises it. |
| Customers.EmailSearchIgnoresCase | src/composables/useCustomers.ts:163-168 | the email search is case-insensitive in its query |
| Customers.EmailSearchFinds | src/composables/useCustomers.ts:163-168 | a customer is found exactly when its email or full name contains the query, ignoring case |
| Customers.PhoneSearchFinds | src/composables/useCustomers.ts:169-174 | a customer is found exactly when its phone contains the query as written, or its full name contains it ignoring case |
| Customers.CustomerSearch.constructor | src/composables/useCustomers.ts:116-158 | both result lists start empty, and the mock list is the five sample customers |
| Customers.CustomerSearch.SearchCustomersMock | src/composables/useCustomers.ts:116-175 | an email search sets only the email results and a phone search only the phone results |
| Customers.CustomerSearch.SearchByEmail | src/composables/useCustomers.ts:73-92 | a query under 3 characters clears the results without searching. In development it runs the mock search. Otherwise the results are the returned customers, or [] on error. |
| Customers.CustomerSearch.SearchByPhone | src/composables/useCustomers.ts:94-113 | the same, with the threshold at 4 characters |
| Customers.MobilePatternIsValidate | src/composables/useCustomers.ts:316-319 | the pattern holds exactly for '+639' or '09' followed by exactly nine digits |
| Customers.ValidatePhoneNumber | src/composables/useCustomers.ts:316-319 | the mobile pattern by length and prefix. MobilePatternIsValidate proves it equal to the regex. |
| Customers.ValidateImpliesIsValid | src/composables/useCustomers.ts:316-319 | every number this validator accepts is also accepted by `isValidPhoneNumber` |
| Customers.FirstMatch | src/composables/useCustomers.ts:303-308 | `String.replace` rewrites the first position where the pattern matches |
| Customers.FormatPhoneNumber | src/composables/useCustomers.ts:301-310 | a number not starting with '+639' or '09' is returned unchanged. Otherwise at most three spaces are added. |
| Customers.FormatInternational | src/composables/useCustomers.ts:303-305 | a valid '+639' number becomes '+639 DD DDD DDDD' |
| Customers.FormatLocal | src/composables/useCustomers.ts:306-308 | an 11-digit '09' number becomes 'DDDD DDD DDDD' |
| Customers.FormatOnlyAddsSpaces | src/composables/useCustomers.ts:301-310 | formatting only inserts spaces, so stripping separators undoes it |
| Customers.FormatKeepsValidity | src/composables/useCustomers.ts:301-310 | `isValidPhoneNumber` gives the same answer before and after formatting |
| Customers.CreateCustomerMock | src/composables/useCustomers.ts:236-291 | the push-built error list and the result agree with the reference definition |
| Customers.MockCreation | src/composables/useCustomers.ts:236-291 | the reference result of the mock creation. MockCreationOutcome and MockErrorOrder characterise it. |
| Customers.MockCreationOutcome | src/composables/useCustomers.ts:241-290 | succeeds exactly when both names are set, the e-mail is valid and not the duplicate address, and the phone is valid. The new customer's full name is `first + ' ' + last`, and a failure carries at least one error. |
| Customers.MockErrorOrder | src/composables/useCustomers.ts:241-266 | errors come in the order firstName, lastName, email, phone, duplicate, and there are at most five |
| Customers.CreateCustomer | src/composables/useCustomers.ts:192-233 | in development it uses the mock. A thrown call gives the network failure, and payload errors are passed on with 'Customer creation failed with validation errors'. A customer without errors is a success with 'Customer created successfully'. Anything else is 'Unknown error occurred during customer creation' with 'Customer creation failed'. |
| GlobalStore.Spread | src/stores/global.ts:27-32 | a field the caller supplies overrides the default, even with undefined |
| GlobalStore.WithDefaults | src/stores/global.ts:27-32 | the defaults are duration 2000, persistent false and no message, and the supplied fields override them |
| GlobalStore.IndexOfId | src/stores/global.ts:58 | the first notification with that id, or none |
| GlobalStore.RemoveId | src/stores/global.ts:57-62 | an absent id changes nothing, and otherwise exactly one entry goes |
| GlobalStore.RemoveIdKeepsOthers | src/stores/global.ts:57-62 | every other notification stays, nothing new appears, and with unique ids the id is gone |
| GlobalStore.RemoveShown | src/stores/global.ts:57-62 | removing a freshly shown notification restores the list as it was |
| GlobalStore.UnreadCountAppend | src/stores/global.ts:16-17 | the unread count adds up over concatenation |
| GlobalStore.UnreadCountIsCount | src/stores/global.ts:16-17 | `unreadNotifications` counts exactly the non-persistent entries |
| GlobalStore.UnreadCount | src/stores/global.ts:15-17 | never more than the number of notifications. UnreadCountIsCount and UnreadCountAppend characterise it. |
| GlobalStore.ErrorDefaults | src/stores/global.ts:77-85 | a persistent error has no duration and a non-persistent one lasts 2500 |
| GlobalStore.GlobalStore.constructor | src/stores/global.ts:7-11 | not loading, no notifications, sidebar closed, light theme |
| GlobalStore.GlobalStore.UnreadNotifications | src/stores/global.ts:16-17 | never more than the number of notifications |
| GlobalStore.GlobalStore.SetLoading | src/stores/global.ts:20-23 | sets the loading flag and the message ('' when left out) and nothing else |
| GlobalStore.GlobalStore.ShowNotification | src/stores/global.ts:25-55 | appends exactly one defaulted notification at the end and returns its id. The unread count grows by one unless the notification is persistent. |
| GlobalStore.GlobalStore.RemoveNotification | src/stores/global.ts:57-62 | the list loses that id's entry, and nothing else changes |
| GlobalStore.GlobalStore.ClearAllNotifications | src/stores/global.ts:64-66 | empties the list |
| GlobalStore.GlobalStore.ShowSuccess | src/stores/global.ts:68-75 | appends a success notification with duration 1500 unless one is given, and nothing else changes |
| GlobalStore.GlobalStore.ShowError | src/stores/global.ts:77-85 | appends an error notification whose duration depends on `persistent`, and nothing else changes |
| GlobalStore.GlobalStore.ShowWarning | src/stores/global.ts:87-94 | appends a warning notification with duration 2000 unless one is given, and nothing else changes |
| GlobalStore.GlobalStore.ShowInfo | src/stores/global.ts:96-103 | appends an info notification with duration 2000 unless one is given, and nothing else changes |
| GlobalStore.GlobalStore.ToggleSidebar | src/stores/global.ts:105-107 | flips the sidebar, and no other field changes |
| GlobalStore.GlobalStore.SetSidebar | src/stores/global.ts:109-111 | sets the sidebar, and no other field changes |
| GlobalStore.GlobalStore.SetTheme | src/stores/global.ts:113-116 | sets the theme and stores it under 'pos_theme', and no other field changes |
| GlobalStore.GlobalStore.InitializeTheme | src/stores/global.ts:118-127 | a stored non-empty theme wins, and otherwise the system preference picks dark or light. No other field changes. |
| GlobalStore.GlobalStore.Reset | src/stores/global.ts:130-136 | not loading, empty message, no notifications, sidebar closed, light theme |
| GlobalStore.ToggleTwice | src/stores/global.ts:105-107 | toggling twice restores the sidebar |
| AuthStore.NameOf | src/stores/auth.ts:13-15 | `first + ' ' + last`, or '' with no user |
| AuthStore.RoleOf | src/stores/auth.ts:16 | the user's role, or '' with no user |
| AuthStore.AuthStore.constructor | src/stores/auth.ts:7-9 | no user, no token, not loading |
| AuthStore.AuthStore.Login | src/stores/auth.ts:19-59 | succeeds exactly when email and password are non-empty. Then the user has that email and the token starts with 'mock-jwt-token-' and is stored under 'pos_auth_token'. A failure leaves everything unchanged. Loading is false afterwards in every case. |
| AuthStore.AuthStore.Logout | src/stores/auth.ts:61-65 | clears user and token and removes the stored token |
| AuthStore.AuthStore.InitializeAuth | src/stores/auth.ts:67-82 | with no stored token nothing changes. Otherwise the token is the stored one and the session is logged in. |
| AuthStore.AuthStore.VerifyToken | src/stores/auth.ts:84-103 | a 'mock-jwt-token-' prefix keeps the session with the mock user, and any other token logs out. The loading flag is untouched. |
| AuthStore.AuthStore.Reset | src/stores/auth.ts:106-108 | logs out and leaves the loading flag alone |
| AuthStore.LoginThenReload | src/stores/auth.ts:19-82 | after a successful login, a store reloaded from the same storage is logged in with the same token |
| Auth.ClassifyLogin | src/composables/useAuth.ts:114-180 | success exactly when the payload has no errors and has both user and token, with 'Login successful'. Payload errors pass through with the first message. Otherwise the result is 'Invalid response from server'. A throw gives the GraphQL messages if there are any, then the network failure, then the generic login failure. A failure always carries errors. |
| Types.ErrorsOf | src/composables/useAuth.ts:160 | one error per GraphQL message, in order |
| Auth.LoginThrownPrecedence | src/composables/useAuth.ts:153-179 | thrown GraphQL errors take precedence over the network error |
| Auth.ClassifyLogout | src/composables/useAuth.ts:183-212 | fails only on payload errors, and then carries them with 'Logout failed'. A success passes the payload on, with the payload's message or 'Logout successful'. A thrown call or missing data still counts as logged out locally. |
| Auth.ClassifyRefresh | src/composables/useAuth.ts:215-260 | success exactly when the payload has no errors and has both token and user. Payload errors pass through with 'Token refresh failed'. Any other answer is 'Invalid refresh token response'. A thrown call means authentication expired. |
| Auth.MockIdentity | src/composables/useAuth.ts:288-300 | 'admin' in the email gives admin, Admin User. Otherwise 'staff' gives staff, Staff Member, and any other email gives staff, Demo User. |
| Auth.MockLogin | src/composables/useAuth.ts:278-338 | succeeds exactly when the email is non-empty and Latin-1 and the password has at least 6 characters. A success returns the mock user, the 'mock-jwt-' token and a refresh token that starts with 'mock-refresh-'. Bad credentials give 'Invalid email or password'. An email `btoa` rejects gives 'Mock login error'. |
| Auth.MockUser | src/composables/useAuth.ts:302-309 | the user record carries the email and the role and names MockIdentity picks |
| Auth.NonLatin1EmailFails | src/composables/useAuth.ts:311 | an email with a character above U+00FF fails the mock login, because `btoa` throws |
| Auth.MockLogout | src/composables/useAuth.ts:340-364 | always succeeds |
| Auth.MockRefresh | src/composables/useAuth.ts:366-408 | succeeds exactly when the token starts with 'mock-refresh-', and it returns a new token with that prefix |
| Auth.LoginRefreshChain | src/composables/useAuth.ts:302-397 | login, then refresh, then refresh again all succeed |
| Auth.TokenManager.constructor | src/composables/useAuth.ts:433-436 | wraps the given storage |
| Auth.TokenManager.SetTokens | src/composables/useAuth.ts:438-443 | always writes the token. The refresh token is written only when one is given, and otherwise the old one is kept. |
| Auth.TokenManager.SetUser | src/composables/useAuth.ts:445-447 | stores the user record under its key, so a later read returns it when it is non-empty. The tokens are untouched. |
| Auth.TokenManager.GetStoredUser | src/composables/useAuth.ts:457-460 | returns exactly the stored record when a non-empty one is stored, and nothing otherwise |
| Auth.TokenManager.ClearTokens | src/composables/useAuth.ts:462-466 | removes the three keys, after which all three getters return nothing |
| CreateOrder.ClassifyCreateOrder | src/composables/useCreateOrder.ts:112-158 | payload errors give a failure that carries them. An order without errors is a success. Neither gives exactly the 'Unknown error occurred during order creation' failure. A thrown call is the network failure, and every failure carries errors. |
| CreateOrder.PaymentMethodLabel | src/composables/useCreateOrder.ts:334-344 | the table label for a known code, otherwise 'Unknown Payment Method' |
| CreateOrder.PaymentLabelsKnown | src/composables/useCreateOrder.ts:335-341 | the five known codes and their labels |
| CreateOrder.PaymentLabelUnknown | src/composables/useCreateOrder.ts:343 | every other code gets 'Unknown Payment Method' |
| CreateOrder.MockSubtotalIsUnitsTimesPrice | src/composables/useCreateOrder.ts:249 | the mock subtotal is 15000 times the sum of the quantities |
| CreateOrder.MockSubtotal | src/composables/useCreateOrder.ts:249 | the reduce over the items. MockSubtotalIsUnitsTimesPrice and MockSubtotalIsLineTotals characterise it. |
| CreateOrder.MockItems | src/composables/useCreateOrder.ts:274-281 | one order item per input item, in order |
| CreateOrder.MockSubtotalIsLineTotals | src/composables/useCreateOrder.ts:249-281 | the line totals add up to the subtotal |
| CreateOrder.MockCreateOrder | src/composables/useCreateOrder.ts:236-332 | the order is PENDING. Shipping is 500 exactly for online orders, convenience is 100 exactly for card, and the discount is 0. The total is patched to the sum of the parts. The customer's full name is `first + ' ' + last`, and the payment label comes from the table. The shipping label is 'Standard Delivery' exactly when a shipping code is given. The delivery address is the mock address of the input address, or absent without one. |
| CreateOrder.MockAddress | src/composables/useCreateOrder.ts:265-273 | street is line1 and unit is line2. The barangay is 'Unknown', and the province is the state or 'Unknown'. City and postal code are copied. |
| Products.BuildFilter | src/composables/useProducts.ts:161-177 | `search` is present exactly when the term is non-empty. `categoryId` is present exactly when a non-empty category is selected. `active: true` is present exactly when activeOnly is set, and `false` never appears. The filter is null exactly when no key was added. |
| Products.InitialFilter | src/composables/useProducts.ts:156-177 | the initial state filters on active products only |
| Products.ClassifyItem | src/composables/useProducts.ts:220-236 | a thrown call gives one generic error. Otherwise success holds exactly when the payload has no errors, and the errors or the item are passed on. |
| Products.MissingPayloadSucceeds | src/composables/useProducts.ts:220-230 | a missing payload counts as a success without an item |
| Products.CreateProduct | src/composables/useProducts.ts:212-245 | the classification with the create-product message |
| Products.UpdateProduct | src/composables/useProducts.ts:250-283 | the classification with the update-product message |
| Products.CreateCategory | src/composables/useProducts.ts:407-438 | the classification with the create-category message |
| Products.AuthHeaders | src/composables/useProducts.ts:348-354 | a Bearer header is sent only when a non-empty token exists |
| Products.ClassifyUpload | src/composables/useProducts.ts:363-392 | a failed request or a non-OK status gives the generic failure. Top-level GraphQL errors are checked first and reported one per message. Otherwise the payload's errors are passed through. Success happens exactly when there are neither, and it carries the returned product. |
| Products.UploadTopLevelErrorsFirst | src/composables/useProducts.ts:369-381 | when both kinds of error are present, the top-level ones are reported |

## Left out

- `src/utils/currency.ts`, and `formatPrice`, `priceToCents`, `getPriceCents` and `getFormattedPrice` in `useProducts.ts`: these are floating-point rounding and locale formatting. `isValidPrice` is modelled over Dafny's exact `real`, so `Number.isFinite` always holds.
- `isTokenExpired` in `useAuth.ts`: it needs base64 decoding, JSON parsing and the wall clock.
- `setUser` and `getStoredUser` keep the user as the raw JSON string. The JSON round trip is not modelled.
- Timers and the DOM are not modelled: the notification auto-removal and fade classes, the 300 ms search debounce, the simulated delays in the mocks, and `window.matchMedia`, whose answer is a parameter.
- The loading flags of the composables (`loginLoading`, `loading` and so on) are not modelled, because no decision depends on them. The auth store's `isLoading` is modelled.
- `fetch` and `FormData` in `createProductWithPhoto` become the `UploadOutcome` value. The GraphQL transport (`useMutation`, `useQuery`, `useLazyQuery`), `src/apollo/client.ts`, `src/main.ts`, `src/router/index.ts` and the query wrappers in `src/composables/useOrders.ts` are not part of this model.
- `useAuthentication`, `useOrderCreation`, `confirmOrder` and `completeOrder` only select or forward to the modelled functions.
- `Customers.CustomerSearch.SearchByEmail`: the live query is the `response` parameter. Apollo's `loading` ref is not modelled.
- `Customers.CustomerSearch.SearchByPhone`: the live query is the `response` parameter, as for the e-mail search.
- `validateEmail` in `useCustomers.ts` uses the same pattern as `isValidEmail`, so `Validation.IsValidEmail` models both.
- Text is `seq<char>`. `toLowerCase` is modelled for ASCII only, and string length counts characters rather than UTF-16 code units.
- Record keys are looked up as plain association lists. Inherited JavaScript prototype keys such as `constructor` are not modelled.
- `Number(value)` in the min and max checks is modelled for integers and decimal digit strings. Any other text counts as NaN, so both comparisons are false.
- `FormValidation.FormValidator.ValidateForm`: the rule table is assumed to name each field once, as object keys do.
- Vue watcher batching is modelled as: assign, then run the region, province and city watchers in that order against the values before the call.
- `localStorage` exceptions are not modelled: `setItem` and `removeItem` always succeed, though a browser throws when storage is full or disabled. This leaves out two `catch` branches of the auth store. In `login` the catch would turn the exception into 'Login failed. Please try again.'; in `verifyToken` it would call `logout`. It also leaves out the exception that escapes `GlobalStore.GlobalStore.SetTheme`.
- The mock customer list is a constant field of the search object. All five sample customers are modelled.
- An order item's nested product record is reduced to its product id.
- Several getters have no contract of their own and are covered by the functions they return: `Cart.CartStore.SubtotalCents`, `TotalCents`, `ItemCount`, `IsEmpty`, `AuthStore.AuthStore.IsLoggedIn`, `UserName`, `UserRole`, `Auth.TokenManager.GetToken`, `GetRefreshToken`, `GlobalStore.GlobalStore.HasNotifications` and the `AddressSelector` option and name getters.
