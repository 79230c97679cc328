# BloodLink client logic in Dafny

BloodLink is a React client that connects blood donors, blood banks and
recipients. It has no server: every page works on mock data and the session
lives in the browser's `localStorage`. This project models the parts of the
client that hold logic, one Dafny module per source file:

- `inventory.dfy` (`Inventory`): the blood bank's inventory table. It covers
  adding N units to one blood type and removing one unit, never going below
  zero. Both re-derive the row's status from the threshold rule: more than 10
  units is Adequate, more than 5 is Low, anything else is Critical. It also
  covers the search box, the three status counts and the unit total. The page
  is a class whose methods replace its `bloodInventory` sequence.
- `auth.dfy` (`Auth`): the session store. It holds `currentUser`, `userType`
  and `loading`, and it persists the login record under the `bloodlink_user`
  key. It covers `login`, `register`, `logout` and the start-up restore.
  `localStorage` is a second class, so the record outlives a page load.
- `protected_route.dfy` (`ProtectedRoute`): the route gate. While the session
  is restored it shows a spinner. With no session of the required role it
  redirects to `/<role>/login`. Otherwise it renders the page.
- `register.dfy` (`Register`): the registration form. The form data is a map
  from field names to the text typed in. Submitting runs two checks in order:
  the password must equal its confirmation, then a donor's age must lie in
  [18, 65]. The user record is built per role, and the delayed registration
  leads to the profile page.
- `donor_list.dfy`, `recipient_page.dfy` and `donation_page.dfy`
  (`DonorList`, `RecipientPage`, `DonationPage`): the three list pages. Each
  has a case-insensitive substring filter over its mock list; the donor list
  adds an exact blood-group filter. Each page's selection, map or dialog state
  is a class. The donation page also reads the start of an opening-hours
  string (`time.split(' - ')[0]`).
- `animation_classes.dfy` (`AnimationClasses`): the animation-class table and
  `combineAnimations`.
- Shared models of the JavaScript built-ins the pages call:
  - `text.dfy` (`Text`): `toLowerCase`, `includes`, `parseInt`, `split` and
    `join`;
  - `lists.dfy` (`Lists`): `Array.prototype.filter`;
  - `wrappers.dfy`: `Option`, which stands for `null`, `NaN` and a missing
    entry.

The router in `src/App.jsx` spells the roles `donor` and `bloodbank` and
declares `/donor/login` and `/bloodbank/login`; the model uses the same
spellings.

## Model

| member | source | states |
|---|---|---|
| Inventory.StatusFor | src/pages/Inventory.jsx:42-45 | the label is Adequate iff units > 10, Low iff 5 < units <= 10, Critical iff units <= 5 |
| Inventory.StatusMonotone | src/pages/Inventory.jsx:43-45 | more units never give a more alarming label |
| Inventory.InitialInventoryBreaksRule | src/pages/Inventory.jsx:9 | the seed row B- has 5 units but is labelled Low, so the rule holds only for rows an operation has touched |
| Inventory.InitialInventoryWellFormed | src/pages/Inventory.jsx:5-14 | the seed table has 8 rows, non-negative units and one row per blood type |
| Inventory.AddUnitsTo | src/pages/Inventory.jsx:40-50 | same length; each row of the selected type gains exactly n units and is relabelled by the rule; every other row is unchanged |
| Inventory.RemoveUnitFrom | src/pages/Inventory.jsx:58-68 | same length; each row of the type with units > 0 loses exactly one and is relabelled; empty rows and other rows are unchanged |
| Inventory.AddPreservesTable | src/pages/Inventory.jsx:40-50 | a positive add keeps units non-negative, the types and their order, and unique types; the touched rows obey the status rule |
| Inventory.RemovePreservesTable | src/pages/Inventory.jsx:58-68 | a remove never makes units negative and keeps the types, their order and unique types; the touched rows obey the status rule |
| Inventory.RemoveFromEmptyRowChangesNothing | src/pages/Inventory.jsx:59 | removing from a row with no units leaves the whole table as it was |
| Inventory.TotalAfterAdd | src/pages/Inventory.jsx:126 | after an add the total rises by n times the number of rows of that type |
| Inventory.TotalAfterRemove | src/pages/Inventory.jsx:126 | after a remove the total falls by the number of stocked rows of that type |
| Inventory.OnlyRowOfItsType | src/pages/Inventory.jsx:5-14 | with unique types a row is the only row of its type |
| Inventory.AbsentType | src/pages/Inventory.jsx:40-50 | a type no row has is counted zero times |
| Inventory.AddRaisesTotal | src/pages/Inventory.jsx:126 | with unique types, adding n units to a listed type raises the total by exactly n |
| Inventory.RemoveLowersTotal | src/pages/Inventory.jsx:126 | with unique types, removing from a stocked row lowers the total by exactly 1 |
| Inventory.StatusCountsPartition | src/pages/Inventory.jsx:108-120 | the Adequate, Low and Critical counts add up to the number of rows |
| Inventory.StatusCount | src/pages/Inventory.jsx:108-133 | a status count never exceeds the number of rows, and it is positive iff some row carries that status, so the critical alert shows iff the Critical count is positive |
| Inventory.TotalUnits | src/pages/Inventory.jsx:126 | the total of a table with no negative row is not negative |
| Inventory.FilteredInventory | src/pages/Inventory.jsx:24-26 | no longer than the table; every row shown is a table row whose type contains the term ignoring case, and every such row is shown |
| Inventory.SearchSelectsMatchingRows | src/pages/Inventory.jsx:24-26 | the search keeps, in table order, exactly the rows whose lower-cased type contains the lower-cased term |
| Inventory.EmptySearchKeepsAll | src/pages/Inventory.jsx:24-26 | an empty term shows the whole table |
| Inventory.UnitsFromInput | src/pages/Inventory.jsx:237-238 | an empty field gives 0, a NaN parse gives 0, otherwise the parsed integer |
| Inventory.UnitsFromNumeral | src/pages/Inventory.jsx:237-238 | typing the numeral of k sets the count to k |
| Inventory.InventoryPage.constructor | src/pages/Inventory.jsx:17-21 | the page starts with the seed table, an empty search, the dialog closed, no type and 1 unit |
| Inventory.InventoryPage.HandleAddUnits | src/pages/Inventory.jsx:37-55 | with no type selected or a count <= 0 nothing changes; otherwise the table becomes AddUnitsTo and the dialog resets (closed, no type, 1 unit); the table invariant is kept |
| Inventory.InventoryPage.HandleRemoveUnit | src/pages/Inventory.jsx:57-69 | the table becomes RemoveUnitFrom and nothing else changes; the table invariant is kept |
| Inventory.InventoryPage.SetSearchTerm | src/pages/Inventory.jsx:88 | only the search term changes |
| Inventory.InventoryPage.OpenAddModal | src/pages/Inventory.jsx:93 | only the dialog opens |
| Inventory.InventoryPage.AddToRow | src/pages/Inventory.jsx:184-187 | a row's plus button selects its type and opens the dialog |
| Inventory.InventoryPage.SelectBloodType | src/pages/Inventory.jsx:218-219 | only the selected type changes |
| Inventory.InventoryPage.EnterUnits | src/pages/Inventory.jsx:236-239 | only the count changes, to UnitsFromInput of the text |
| Inventory.InventoryPage.CancelAddModal | src/pages/Inventory.jsx:249 | only the dialog closes; the selection and the count stay |
| Auth.UserType.Name | src/context/AuthContext.jsx:10 | a role is spelled "donor" or "bloodbank" |
| Auth.RestoreFrom | src/context/AuthContext.jsx:14-18 | a stored login record is rehydrated with its own user and type; a missing or empty entry restores nothing; only unparsable text throws |
| Auth.BrowserStorage.constructor | src/context/AuthContext.jsx:14 | the storage holds what the browser had stored |
| Auth.AuthProvider.constructor | src/context/AuthContext.jsx:8-10 | no user, no type, and loading is true |
| Auth.AuthProvider.Restore | src/context/AuthContext.jsx:13-21 | a record sets user and type; no entry leaves them; loading ends unless the parse throws, in which case it stays as it was; completion iff no throw |
| Auth.AuthProvider.Login | src/context/AuthContext.jsx:24-30 | user and type are set, the record is written, success is reported, loading is untouched |
| Auth.AuthProvider.Register | src/context/AuthContext.jsx:40-46 | exactly the effect and result of Login |
| Auth.AuthProvider.Logout | src/context/AuthContext.jsx:33-37 | no user, no type, the record is removed, loading is untouched |
| Auth.LoginThenReload | src/context/AuthContext.jsx:13-30 | a login followed by a page load restores the same user and type, and loading ends |
| Auth.LogoutThenReload | src/context/AuthContext.jsx:13-37 | a logout followed by a page load gives an empty session, and loading ends |
| Auth.LastWriteWins | src/context/AuthContext.jsx:24-46 | after a login and then a registration, the later one is the session, both live and after a reload |
| Auth.ReloadOverMalformedEntry | src/context/AuthContext.jsx:15-20 | over a stored entry JSON.parse rejects, the restore aborts, no user is restored and `loading` stays true |
| ProtectedRoute.LoginPath | src/components/ProtectedRoute.jsx:18 | the redirect target is /donor/login or /bloodbank/login, and it is a route the router declares |
| ProtectedRoute.Decide | src/components/ProtectedRoute.jsx:4-22 | loading gives the spinner; the page renders iff not loading, a user is present and the session role equals the required one; every other case redirects to LoginPath of the required role |
| ProtectedRoute.WrongRoleRedirects | src/components/ProtectedRoute.jsx:17-18 | a session of the other role is redirected even though a user is present |
| ProtectedRoute.RedirectDependsOnlyOnRequired | src/components/ProtectedRoute.jsx:18 | any two redirects for the same required role go to the same place |
| ProtectedRoute.Gate | src/components/ProtectedRoute.jsx:4-22 | read from the session provider: loading gives the spinner; the page renders iff not loading, a user is present and the provider's role is the required one; a redirect goes to LoginPath of the required role |
| ProtectedRoute.VisitAfterPageLoad | src/components/ProtectedRoute.jsx:8-22 | after a page load, a record of the required role renders, any other record or none redirects, and over an unparsable entry the restore aborts, `loading` stays true and the gate decides for the loading indicator |
| ProtectedRoute.VisitAfterLogin | src/components/ProtectedRoute.jsx:17-22 | after a login as t, a page renders iff it requires t, and otherwise redirects |
| ProtectedRoute.VisitAfterLogout | src/components/ProtectedRoute.jsx:17-18 | after a logout every protected page redirects to its login page |
| Register.InitialForm | src/pages/Register.jsx:7-21 | the form starts with exactly the fields of that kind of account, all empty |
| Register.AgeRejected | src/pages/Register.jsx:45 | an age is accepted iff it parses to NaN or to an integer in [18, 65] |
| Register.AgeRejectedNumeral | src/pages/Register.jsx:45 | for a typed numeral, the age is rejected iff it is below 18 or above 65 |
| Register.AgeRejectedReadsLeadingNumeral | src/pages/Register.jsx:45 | a numeral followed by a non-digit (as in "17.9") is judged by its integer part |
| Register.ValidationError | src/pages/Register.jsx:40-48 | a password mismatch always gives its message; the age message iff the passwords match, the account is a donor's and the age is rejected; no error iff neither check fails |
| Register.DonorFormAccepted | src/pages/Register.jsx:40-48 | a donor form with matching passwords and the numeral of an age in [18, 65] passes both checks |
| Register.BanksSkipAgeCheck | src/pages/Register.jsx:45 | a blood bank is never refused for its age |
| Register.UnparsableAgePasses | src/pages/Register.jsx:45 | a donor age that parses to NaN passes the age check |
| Register.BuildUser | src/pages/Register.jsx:56-69 | the record has the given id, the form's name and email, and exactly the donor fields or the bank fields, by role |
| Register.ProfilePath | src/pages/Register.jsx:74 | the target is /donor/profile for a donor and /bloodbank/profile for a bank, and it is a declared route |
| Register.RegisterForm.constructor | src/pages/Register.jsx:7-23 | the page starts with the initial form, no error, not loading and nothing scheduled |
| Register.RegisterForm.HandleChange | src/pages/Register.jsx:27-33 | only the named field changes, to the typed value |
| Register.RegisterForm.HandleSubmit | src/pages/Register.jsx:35-55 | the error is cleared, then the first failing check sets its message and stops; with both checks passed loading starts and the registration is scheduled with the form as it is now |
| Register.RegisterForm.CompleteRegistration | src/pages/Register.jsx:55-79 | the user built from the captured form becomes the session and the stored record; the page goes to the role's profile and loading stops |
| Register.RegisterDonorThenOpenProfile | src/pages/Register.jsx:35-79 | a donor with matching passwords and an age in [18, 65] ends on /donor/profile, which the route gate renders |
| Register.SubmitMismatchedPasswords | src/pages/Register.jsx:40-43 | mismatched passwords report the password error, never the age error, and schedule nothing |
| DonorList.FilteredDonors | src/pages/DonorList.jsx:74-79 | no longer than the list; every donor shown is listed and matches the term (name or email, ignoring case) and the group (none selected or equal); every such donor is shown |
| DonorList.FilteredDonorsSelects | src/pages/DonorList.jsx:74-79 | the list keeps, in order, exactly the donors whose name or email contains the term ignoring case and whose group equals the selected one (or none is selected) |
| DonorList.NoFilterKeepsAll | src/pages/DonorList.jsx:74-79 | with no term and no group every donor is listed |
| DonorList.SearchIgnoresCase | src/pages/DonorList.jsx:75-76 | a term and its lower-cased form list the same donors |
| DonorList.GroupMatchIsExact | src/pages/DonorList.jsx:77 | the group filter is equality: "A" keeps no donor although "A+" contains "A" |
| DonorList.DonorListState.constructor | src/pages/DonorList.jsx:69-71 | the page lists the mock donors, with no term, no group and no selected donor |
| DonorList.DonorListState.SetSearchTerm | src/pages/DonorList.jsx:69 | only the term changes, and the donors shown are the filter by the new term |
| DonorList.DonorListState.SelectBloodGroup | src/pages/DonorList.jsx:70 | only the group changes, and the donors shown are the filter by the new group |
| DonorList.DonorListState.IsHighlighted | src/pages/DonorList.jsx:143 | an entry is highlighted only while a donor is selected, and the selected donor's own entry always is |
| DonorList.OneDonorHighlighted | src/pages/DonorList.jsx:143 | the mock donors have distinct ids, so with one of them selected exactly that entry is highlighted |
| DonorList.DonorListState.HandleDonorClick | src/pages/DonorList.jsx:81-83 | that donor is selected and highlighted; the filters stay |
| RecipientPage.FilteredBloodBanks | src/pages/RecipientPage.jsx:81-84 | no longer than the list; every bank shown is listed and its name or address contains the term ignoring case; every such bank is shown |
| RecipientPage.FilteredBloodBanksSelects | src/pages/RecipientPage.jsx:81-84 | the list keeps, in order, exactly the banks whose name or address contains the term ignoring case |
| RecipientPage.EmptySearchKeepsAll | src/pages/RecipientPage.jsx:81-84 | an empty term lists every bank, in order |
| RecipientPage.SearchIgnoresCase | src/pages/RecipientPage.jsx:82-83 | a term and its lower-cased form list the same banks |
| RecipientPage.RecipientPageState.constructor | src/pages/RecipientPage.jsx:75-78 | the page lists the mock banks, with no term, no selection, the `mapCenter` state on New York and the `zoom` state 13 |
| RecipientPage.RecipientPageState.SetSearchTerm | src/pages/RecipientPage.jsx:75 | only the term changes, and the banks shown are the filter by the new term |
| RecipientPage.RecipientPageState.HandleBloodBankClick | src/pages/RecipientPage.jsx:86-90 | the bank is selected, the `mapCenter` state becomes the bank's position and the `zoom` state becomes 15 |
| RecipientPage.RecipientPageState.HandleMarkerClick | src/pages/RecipientPage.jsx:164-166 | a marker click selects the bank and leaves the `mapCenter` and `zoom` state as they were |
| RecipientPage.RecipientPageState.HandleMapClick | src/pages/RecipientPage.jsx:7-14 | a map click clears the selection and nothing else |
| DonationPage.FilteredOpportunities | src/pages/DonationPage.jsx:66-69 | no longer than the list; every opportunity shown is listed and its bank name or address contains the term ignoring case; every such opportunity is shown |
| DonationPage.FilteredOpportunitiesSelects | src/pages/DonationPage.jsx:66-69 | the list keeps, in order, exactly the opportunities whose bank name or address contains the term ignoring case |
| DonationPage.EmptySearchKeepsAll | src/pages/DonationPage.jsx:66-69 | an empty term lists every opportunity, in order |
| DonationPage.SearchIgnoresCase | src/pages/DonationPage.jsx:67-68 | a term and its lower-cased form list the same opportunities |
| DonationPage.BeforeFirst | src/pages/DonationPage.jsx:82 | the result is a prefix of the string; it is followed by the separator unless it is the whole string; the separator occurs nowhere before it |
| DonationPage.BeforeFirstWithoutSeparator | src/pages/DonationPage.jsx:82 | without the separator the whole string comes back |
| DonationPage.BeforeFirstOccurrence | src/pages/DonationPage.jsx:82 | the result is the text before the first occurrence of the separator |
| DonationPage.StartTime | src/pages/DonationPage.jsx:82 | the start time is a prefix of the hours, followed by " - " unless it is the whole string, with no " - " inside it |
| DonationPage.StartTimeOf | src/pages/DonationPage.jsx:82 | for "start - end" with no dash in start, the start time is start |
| DonationPage.StartTimeExample | src/pages/DonationPage.jsx:12 | "9:00 AM - 5:00 PM" starts at "9:00 AM" |
| DonationPage.ConfirmationMessage | src/pages/DonationPage.jsx:82 | the alert text starts with "Appointment scheduled at " and the bank's name, and ends with the start time of the hours |
| DonationPage.DonationPageState.constructor | src/pages/DonationPage.jsx:61-63 | the page lists the mock opportunities, with no term, no selection and the dialog hidden |
| DonationPage.DonationPageState.SetSearchTerm | src/pages/DonationPage.jsx:61 | only the term changes, and the opportunities shown are the filter by the new term |
| DonationPage.DonationPageState.ModalVisible | src/pages/DonationPage.jsx:179 | the dialog is on screen exactly when it is open and an opportunity is selected, so it never shows without a selection |
| DonationPage.DonationPageState.HandleSchedule | src/pages/DonationPage.jsx:71-74 | the opportunity is selected and the dialog is open and visible |
| DonationPage.DonationPageState.CloseModal | src/pages/DonationPage.jsx:76-78 | the dialog is hidden and the selection stays |
| DonationPage.DonationPageState.ConfirmAppointment | src/pages/DonationPage.jsx:80-84 | the message names the bank, the date and the start time of the selected opportunity; the dialog then closes and the selection stays |
| AnimationClasses.TableValuesNonEmpty | src/utils/animationClasses.js:9-39 | no entry of the table is empty, so a listed name never falls back to itself |
| AnimationClasses.ClassFor | src/utils/animationClasses.js:43 | a listed name maps to its table value; an unlisted name passes through unchanged |
| AnimationClasses.Resolved | src/utils/animationClasses.js:43 | one class string per name, in order, each resolved by ClassFor |
| AnimationClasses.CombineAnimations | src/utils/animationClasses.js:42-44 | no names give ""; otherwise the result starts with the classes of the first name |
| AnimationClasses.CombineNothing | src/utils/animationClasses.js:42-43 | no names give the empty string |
| AnimationClasses.CombineOne | src/utils/animationClasses.js:43 | one name gives its class string with no separator |
| AnimationClasses.CombineAppend | src/utils/animationClasses.js:43 | one more name appends a single space and its class string |
| AnimationClasses.UnknownNamesPassThrough | src/utils/animationClasses.js:43 | unlisted names are joined unchanged |
| AnimationClasses.CombineSplitsBack | src/utils/animationClasses.js:43 | when no resolved class contains a space, splitting the result on spaces gives back one token per name, in order |
| Text.ToLower | src/pages/Inventory.jsx:25 | same length, each character lower-cased, no upper-case letter left |
| Text.ToLowerIdempotent | src/pages/Inventory.jsx:25 | lower-casing twice is lower-casing once |
| Text.ContainsIgnoringCaseOfLowered | src/pages/DonorList.jsx:75-76 | lower-casing the term first does not change a case-insensitive match |
| Text.Includes | src/pages/Inventory.jsx:25 | a string never includes a longer term, and always includes each of its prefixes |
| Text.IncludesIffOccurs | src/pages/Inventory.jsx:25 | includes holds iff the term occurs at some position |
| Text.IncludesEmpty | src/pages/Inventory.jsx:25 | every string includes the empty term |
| Text.TrimStart | src/pages/Register.jsx:45 | parseInt drops exactly the leading white space |
| Text.ParseInt | src/pages/Register.jsx:45 | nothing parses from blank text; a negative result needs a leading minus after the white space; a leading non-zero decimal digit always parses |
| Text.DecimalStringValue | src/pages/Register.jsx:45 | the digits of a numeral are worth its number |
| Text.ParseIntDecimal | src/pages/Register.jsx:45 | parseInt reads a numeral back and stops at the first character that cannot continue it |
| Text.ParseIntNegativeDecimal | src/pages/Register.jsx:45 | the same with a leading minus sign gives the negated number |
| Text.Join | src/utils/animationClasses.js:43 | no parts give ""; otherwise the result starts with the first part |
| Text.SplitOn | src/utils/animationClasses.js:43 | at least one part, and no part contains the separator |
| Text.SplitJoin | src/utils/animationClasses.js:43 | splitting a join on its separator gives the parts back when no part contains it |
| Text.JoinAppend | src/utils/animationClasses.js:43 | joining one more part adds the separator and that part at the end |
| Lists.Filter | src/pages/Inventory.jsx:24 | no longer than the input; keeps only elements that satisfy the test, and every one that does |
| Lists.FilterSelects | src/pages/Inventory.jsx:24 | the filter keeps, in increasing order, exactly the positions whose element satisfies the test |
| Lists.FilterKeepsAll | src/pages/Inventory.jsx:24 | when every element satisfies the test the list is kept whole |
| Lists.FilterAppend | src/pages/Inventory.jsx:24 | filtering distributes over concatenation |
| Lists.FilterAgreeing | src/pages/DonorList.jsx:74 | two tests that agree on every element filter alike |

## Left out

- JSX markup, Tailwind styling, icons and the animation hooks in `src/utils/animations.jsx` are presentational.
- The `setTimeout` delay in `handleSubmit` is not modelled as time. The callback is the separate step `Register.RegisterForm.CompleteRegistration`, which reads the form captured at submit time, as the closure does.
- The `Math.random` user id is a parameter.
- Register.RegisterForm.HandleSubmit: the browser's HTML constraint validation, which runs before `handleSubmit` on a click, is not modelled. Every input is `required`, the age has `min="18"` and `max="65"`, and both passwords have `minLength="6"`. The method is modelled for every form state, so the NaN-age and out-of-range-age paths it covers are reached from the page only by a programmatic submit, and `Register.RegisterDonorThenOpenProfile` also admits empty fields and short passwords the page would refuse.
- Register.RegisterForm.HandleSubmit: a second successful submit while `isLoading` replaces the pending registration, where the page would start a second timer. The page cannot do this, because the submit button is `disabled={isLoading}` (src/pages/Register.jsx:277); a submit that bypasses the button is not modelled as two timers.
- Register.RegisterForm.CompleteRegistration: the failure branch of the page and its `catch` are not modelled, because `register` always returns true and nothing in the `try` throws synchronously.
- `localStorage` and `JSON.stringify`/`JSON.parse` are an abstract entry with three cases: the login record, the empty string, and text the parser rejects. Storage exceptions (quota, private mode) are not modelled.
- Auth.AuthProvider.Restore: what React does with the exception `JSON.parse` throws inside the effect is not modelled. With no error boundary in `src/App.jsx`, React unmounts the tree and the page goes blank; the model only records that the restore aborts and `loading` stays true.
- Auth.AuthProvider.Restore: a stored value that parses but is not a login record is not modelled. For example, `null` would throw on `userData.user`, and a number would restore `undefined`.
- Text.ToLower: only the ASCII letters A-Z are lower-cased; Unicode case mapping is not modelled.
- Text.ParseInt: numbers are unbounded integers. The rounding of `parseInt` results above 2^53 to doubles is not modelled.
- RecipientPage.RecipientPageState.HandleBloodBankClick: the visible map is not modelled. The `mapCenter` and `zoom` state only feed the `center` and `zoom` props of react-leaflet's `MapContainer`, which reads them once when it mounts, so later changes to that state do not move the map.
- RecipientPage.Position: Leaflet's latitude and longitude are integers in units of 10^-4 degrees. This is exact for the page's coordinates; map rendering is not modelled.
- DonationPage.DonationPageState.ConfirmAppointment: `alert` is not modelled as output; the method returns the alert's text instead.
- AnimationClasses.ClassFor: the table is a finite map. Names that JavaScript finds on the object prototype, such as `toString`, are treated as unlisted.
- AnimationClasses.CombineSplitsBack: stated only for names whose classes contain no space. The `btn-hover` and `card-hover` entries expand to several space-separated classes.
- Login.jsx, Navbar.jsx, Home.jsx, the two profile pages and vite.config.js are not part of this model. They hold timers, navigation, menu toggles and submit handlers that discard their data.
- The router wiring and the startup timer in `src/App.jsx` are not modelled; only its list of paths is used.
