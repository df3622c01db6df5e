# Moox Events site: a Dafny model

Moox Events is an event-management company's React web site. It has two halves:

- **Public pages.** Visitors see:
  - the home page's blog, events, gallery and achievement strips;
  - the full gallery;
  - the contact and inquiry forms;
  - the careers page, where a visitor applies for an open position.
- **Admin back-office.** Under `/admin`, staff:
  - sign up and verify by OTP;
  - log in, with an encrypted login exchange and session;
  - use a dashboard that switches between management screens: services, blogs, clients, gallery photos, events, team, achievements, careers, enquiries and contact queries.

The back-office screens load their lists for the logged-in user. They add records, toggle each record's `active` flag and show a notification.

This project models that core in Dafny. The route table and its two guards are modelled too.

How the React pieces map to Dafny:
- **Screens.** Each screen is a `class` whose fields are the component's state.
- **Handlers.** Each handler is a `method` that `modifies` the screen.
  - It states the screen's whole new state.
  - It returns what the handler sends (a `Request`), the alert it shows and the navigation it performs (an `Effect`).
- **HTTP answers.** The server's answer is a parameter of type `Reply`: either the data or an `HttpError`.
- **Browser storage.** `localStorage` is a `LocalStorage` object shared between screens.
- **JavaScript values.** Truthiness, `||`, `!` and `?.` are written out explicitly over a small `Value` type (`Json`).

The pure computations are functions with lemmas relating them to independent statements of what they compute. These are the category lists, the filters, the masonry columns, the newest-first sorting, the form validation, the phone-number composition and the text helpers. Examples of such lemmas:
- the split and join round trip;
- that a filter is a sub-multiset of its input;
- that a toggle applied twice restores the list;
- that the sort keeps exactly the input.

## Model

| member | source | states |
|---|---|---|
| Json.Not | src/admin/addBlogs.jsx:168-175 | `!v` is a boolean that is truthy exactly when `v` is not |
| Json.Or | src/admin/addBlogs.jsx:183-186 | `a \|\| b` is one of its operands and is truthy iff either operand is |
| Json.OfStored | src/admin/addClient.jsx:49 | a missing storage key reads as `null`, a present one as its string |
| Json.Detail | src/admin/addBlogs.jsx:66-75 | the error detail is the server's non-empty message when there is one, else the error's own message |
| Text.TrimStart | src/pages/Inquiry.jsx:66 | removes exactly a whitespace prefix and leaves a suffix that does not start with whitespace |
| Text.TrimEnd | src/pages/Inquiry.jsx:66 | removes exactly a whitespace suffix and leaves a prefix that does not end with whitespace |
| Text.TrimStartEmpty | src/pages/Inquiry.jsx:66 | trimming the start gives "" iff the text is all whitespace |
| Text.TrimEndEmpty | src/pages/Inquiry.jsx:66 | trimming the end gives "" iff the text is all whitespace |
| Text.Trim | src/pages/Inquiry.jsx:66 | `trim()` is empty iff the text is all whitespace, and otherwise has no whitespace at either end |
| Text.TrimIdempotent | src/pages/Career.jsx:43 | trimming twice is trimming once |
| Text.TrimSubstring | src/components/GalleryPage.jsx:29 | the trimmed text is a contiguous slice of the original |
| Text.TrimNoNewChars | src/pages/Career.jsx:43 | trimming never introduces a character that was not there |
| Text.KeepDigits | src/pages/Inquiry.jsx:81 | `replace(/\D/g, "")` keeps only digits, keeps every digit and never lengthens the text |
| Text.KeepDigitsAppend | src/pages/Inquiry.jsx:81 | removing non-digits distributes over concatenation |
| Text.KeepDigitsOneChar | src/pages/Inquiry.jsx:81 | one character is kept iff it is a digit; with the append lemma this fixes the result's order and multiplicity |
| Text.KeepDigitsOfDigits | src/pages/Inquiry.jsx:81 | an all-digit text is left unchanged |
| Text.KeepDigitsIdempotent | src/pages/ContactUS.jsx:50 | sanitising an already sanitised number changes nothing |
| Text.IndexOf | src/pages/Career.jsx:43 | the first position of a separator: it holds the separator and nothing before it does |
| Text.Split | src/pages/Career.jsx:43 | `split(sep)` gives at least one piece, more than one iff the separator occurs, and no piece contains it |
| Text.JoinSplit | src/components/Blogs.jsx:69 | joining the pieces of a split with the same separator gives back the text |
| Text.IndexOfAfterPiece | src/pages/Inquiry.jsx:115 | in `a + sep + b` with no separator in `a`, the first separator sits right after `a` |
| Text.SplitJoin | src/pages/Career.jsx:43 | splitting a join of separator-free pieces gives back the pieces |
| Text.JoinPrefix | src/components/Blogs.jsx:69 | a join splits at any piece boundary into the join of the first pieces, the separator and the join of the rest |
| Text.Piece | src/components/GalleryPage.jsx:42 | `split(sep)[k]` is present iff there are more than `k` pieces, and holds no separator |
| Text.SecondPiece | src/pages/Inquiry.jsx:115 | the second piece of `a + sep + b` is `b` when neither part holds the separator |
| Text.TrimAll | src/pages/Career.jsx:43 | `map(req => req.trim())` trims each piece and keeps the count |
| Text.ToLower | src/components/Blogs.jsx:305 | `toLowerCase()` keeps the length and lowers each ASCII capital in place; other characters are kept |
| Text.ToLowerTwice | src/components/Blogs.jsx:305 | lower-casing is idempotent |
| Text.SpaceBeforeCapitals | src/components/GalleryPage.jsx:29 | `replace(/([A-Z])/g, ' $1')` puts a space before every capital, never shortens the text, and dropping the space before each capital gives the text back |
| Text.UnspacedSpaceBeforeCapitals | src/components/GalleryPage.jsx:29 | the inserted characters are spaces only: with white space removed, the result is the original text |
| Text.UnspacedAppend | src/components/GalleryPage.jsx:29 | removing white space distributes over concatenation |
| Text.UnspacedTrim | src/components/GalleryPage.jsx:29 | trimming removes white space only |
| Text.SpaceBeforeCapitalsNoCapitals | src/components/GalleryPage.jsx:29 | a text without capitals is unchanged |
| Text.EmailPatternNeedsAtAndDot | src/pages/Inquiry.jsx:67 | any text matching `\S+@\S+\.\S+` contains an `@` and a `.` and has at least five characters |
| Text.EmailPatternAccepts | src/pages/Inquiry.jsx:67 | `local@domain.tld` with non-empty, space-free parts and no dot in the domain matches the pattern |
| Text.PhoneRoundTrip | src/pages/Inquiry.jsx:115 | the submitted `"<code> <number>"` splits on the space back into the code and the number |
| Unique.FirstIndex | src/components/Blogs.jsx:271 | the first position of a value: it holds the value and no earlier one does |
| Unique.FirstIndexPrefix | src/components/Blogs.jsx:271 | appending an element does not move the first position of a value already present |
| Unique.FirstIndexUnique | src/components/Blogs.jsx:271 | a position holding the value with no earlier occurrence is the first position |
| Unique.Distinct | src/components/Blogs.jsx:271 | `[...new Set(xs)]` holds exactly the values of `xs`, each once, in first-occurrence order |
| Images.Processed | src/admin/addBlogs.jsx:200-224 | a file at or under 51200 bytes is used as it is; the only way to get nothing is a compressed file whose compression failed |
| Images.Payload | src/admin/addClient.jsx:83 | `split(",")[1]` of a data URL is undefined iff there is no comma, and otherwise holds no comma |
| Images.PayloadOfDataUrl | src/admin/addClient.jsx:83 | the payload of `header,data` is `data` when the header has no comma |
| Images.OptionalPayload | src/admin/addBlogs.jsx:109-114 | `photo?.split(",")[1] \|\| ""`: empty for an absent photo or one without a comma, else the payload |
| Images.UploadBody | src/admin/acheivements.jsx:66-70 | the upload body exists iff the form holds a photo; it carries the user id, the photo's payload and every other form field unchanged |
| Storage.LocalStorage.constructor | src/routes.jsx:32-33 | storage starts with the given items |
| Storage.LocalStorage.GetItem | src/routes.jsx:32-33 | `getItem(k)` is present iff the key is stored, and is then its value |
| Storage.LocalStorage.SetItem | src/admin/Dashboard.jsx:23-25 | `setItem(k, v)` writes one key and leaves the others |
| Storage.LocalStorage.Clear | src/admin/Login.jsx:41-44 | `clear()` empties storage |
| Session.Decrypt | src/admin/Login.jsx:9-16 | decryption succeeds exactly on sealed text |
| Session.DecryptEncrypt | src/admin/Login.jsx:9-16 | decrypting what was encrypted gives back the object |
| Session.StoreSession | src/admin/Login.jsx:64-76 | a login stores exactly `token`, `userid`, `emailid`, `mobileno` and `name`, each as the text of its response field, and keeps every other key |
| Session.RejectionText | src/admin/Login.jsx:77-87 | the error shown for a rejected login: the fallback when there is no body, the decrypted message when the body decrypts, and nothing (a thrown error) when it does not |
| ResourceLists.SetWhere | src/admin/addBlogs.jsx:177-181 | `map(b => b._id === id ? {...b, active} : b)` keeps the length, updates exactly the matching records and leaves the others |
| ResourceLists.SetWhereNoMatch | src/admin/addBlogs.jsx:177-181 | when no record matches, the list is unchanged |
| ResourceLists.SetFieldBack | src/admin/addBlogs.jsx:177-181 | writing a field and then writing back its old value restores the record |
| ResourceLists.SetWhereRestore | src/admin/addBlogs.jsx:177-181 | toggling a field and toggling it back restores the list |
| ResourceLists.ReplaceWhere | src/admin/addService.jsx:145-152 | replacing the matching records keeps the length and the non-matching records |
| ResourceLists.CountWhere | src/admin/addService.jsx:224 | the number of matching records is at most the list's length |
| ResourceLists.RemoveWhere | src/admin/addService.jsx:224 | `filter(s => s.id !== id)` drops exactly the matching records and keeps every other one |
| ResourceLists.RemoveWhereAppend | src/admin/addService.jsx:224 | removing from a concatenation is removing from each part |
| ResourceLists.RemoveWhereNoMatch | src/admin/addService.jsx:224 | removing an id nobody has changes nothing |
| ResourceLists.FirstMatchUnique | src/pages/Career.jsx:60-63 | there is only one first match |
| ResourceLists.FindWhere | src/pages/Career.jsx:60-63 | `find` gives the first matching record, and gives nothing iff none matches |
| ResourceLists.FieldOfFound | src/admin/career.jsx:338-340 | `find(...)?.field` is the first match's field, or the stated absent value when nothing matches |
| Masonry.ColumnSizes | src/components/GalleryPage.jsx:76-82 | the four columns' sizes add up to the item count and differ by at most one, earlier columns first |
| Masonry.ColumnSizeStep | src/components/GalleryPage.jsx:76-82 | one more item grows exactly column `n % 4` |
| Masonry.GetColumns | src/components/GalleryPage.jsx:76-82 | `getColumns` deals item `4k + c` to column `c` at row `k`, giving each column its computed size |
| Masonry.ItemPlacement | src/components/GalleryPage.jsx:76-82 | every item `i` lands in column `i % 4` at row `i / 4`, so no item is lost |
| QueryBoard.FilterByActive | src/admin/enquiry.jsx:95-96 | keeps exactly the queries whose `active` flag has the given truth value |
| QueryBoard.FilterByActiveAppend | src/admin/enquiry.jsx:95-96 | each column's filter keeps the queries' order: it splits over concatenation |
| QueryBoard.FilterByActiveOne | src/admin/enquiry.jsx:95-96 | one query is kept iff its `active` flag has the column's truth value |
| QueryBoard.FilterPartition | src/admin/contactus.jsx:43-44 | the latest and resolved lists together are exactly the queries |
| QueryBoard.InsertByDate | src/admin/enquiry.jsx:95-96 | inserting into a newest-first list keeps it newest first and adds exactly the element |
| QueryBoard.SortNewestFirst | src/admin/enquiry.jsx:95-96 | the date sort gives a newest-first permutation of its input |
| QueryBoard.Columns | src/admin/contactus.jsx:43-44 | the latest column holds only open queries and the resolved column only resolved ones, both newest first, together exactly the queries |
| PublicForms.CountryCodeEntry | src/pages/Inquiry.jsx:288 | the field's `maxLength` keeps the first five typed characters, and all of them when there are at most five |
| PublicForms.AcceptCountryCode | src/pages/Inquiry.jsx:90-100 | the first five typed characters replace the code when they are `+` followed by digits, anything else is ignored, so a valid code stays valid; a changed code is a prefix of what was typed |
| PublicForms.SanitizeMobile | src/pages/Inquiry.jsx:78-88 | the digits of the typed text are kept when there are at most ten, otherwise the old number stays |
| PublicForms.SanitizeMobileKeeps | src/pages/ContactUS.jsx:45-62 | retyping the current number leaves it unchanged |
| PublicForms.EmailRejectedByPattern | src/pages/ContactUS.jsx:37 | the email check (blank or not matching) fails exactly when the pattern does not match |
| PublicForms.MobileRejectedByLength | src/pages/ContactUS.jsx:39 | the mobile check fails exactly when the number is not ten digits |
| PublicForms.NotAllSpace | src/pages/ContactUS.jsx:36 | a field with any non-space character is not blank |
| Routes.StripTrailingSlashes | src/routes.jsx:2 | removes exactly a suffix of slashes, never the leading `/` of a path |
| Routes.StripAddedSlashes | src/routes.jsx:2 | extra trailing slashes make no difference once stripped |
| Routes.StripLower | src/routes.jsx:2 | stripping slashes and lower-casing commute |
| Routes.NormalizeIgnoresSlashesAndCase | src/routes.jsx:2 | the router's matching key ignores trailing slashes and letter case |
| Routes.TablesNormal | src/routes.jsx:65-99 | every declared path has no capital letter and no trailing slash, so it is its own matching key |
| Routes.AdminSpellings | src/routes.jsx:76 | `/admin/`, `/Admin` and `/ADMIN//` all match `/admin` |
| Routes.FindPath | src/routes.jsx:65-99 | finds the first declared route matching the path ignoring case and trailing slashes, or reports that none matches |
| Routes.FindCatchAll | src/routes.jsx:99 | finds the first `*` route, or reports that there is none |
| Routes.Resolve | src/routes.jsx:65-99 | the route a path renders: the first declaration matching it ignoring case and trailing slashes, or else the first catch-all |
| Routes.GuardEffect | src/routes.jsx:28-58 | `ProtectedRoute` sends to `/admin/login` iff the token or the user id is missing or empty; `VerifyRoute` iff the token is |
| Routes.VisitPath | src/routes.jsx:17-99 | a visit to any spelling of a path shows the resolved page with its guard's effect, and the catch-all's redirect to `/` |
| Routes.AdminUnguardedAsWritten | src/routes.jsx:75-76 | as declared, every spelling of `/admin` and `/admin/verify` resolves to the unguarded duplicate and the dashboard never sends anyone to log in |
| Routes.AdminSlashUnguardedAsWritten | src/routes.jsx:96 | `/admin/` reaches the unguarded dashboard too, without the commented-out route |
| Routes.AdminGuarded | src/routes.jsx:79-94 | with the duplicates removed, every spelling of `/admin` sends to login iff the token or the user id is missing |
| Routes.LoginPageOpen | src/routes.jsx:73 | every spelling of `/admin/login` shows the login page with no redirect, in both tables |
| Routes.UnknownPathsGoHome | src/routes.jsx:17-25 | every path matching no declared path, ignoring case and trailing slashes, shows the redirect and goes to `/` |
| Routes.SessionPassesProtectedRoute | src/admin/Login.jsx:64-76 | after a login is stored, the dashboard lets the user stay iff the token and the id are not the empty string |
| Routes.ToTextEmpty | src/admin/Login.jsx:64-76 | a value's text is empty iff the value is the empty string |
| AdminBlogs.AddBodyPhotos | src/admin/addBlogs.jsx:100-115 | each photo slot of the add body is "" when the slot is empty and the payload after the comma otherwise |
| AdminBlogs.AddBody | src/admin/addBlogs.jsx:100-115 | the add body carries the user id and the form's title, description and category as entered |
| AdminBlogs.BlogManagement.constructor | src/admin/addBlogs.jsx:8-28 | the blog screen's initial state |
| AdminBlogs.BlogManagement.OpenModal | src/admin/addBlogs.jsx:248-252 | opening the add form clears the error and changes nothing else |
| AdminBlogs.BlogManagement.CloseModal | src/admin/addBlogs.jsx:268-272 | closing the add form clears the error and changes nothing else |
| AdminBlogs.BlogManagement.FetchBlogs | src/admin/addBlogs.jsx:51-76 | with no stored user id nothing is sent; otherwise the list becomes the server's blogs or the failure notice is shown, and loading ends |
| AdminBlogs.BlogManagement.HandleAddBlog | src/admin/addBlogs.jsx:78-156 | an incomplete form or a missing user id sends nothing; on success the server's blog is appended, the form emptied and the page reloaded; on failure list and form are kept |
| AdminBlogs.BlogManagement.AfterAdd | src/admin/addBlogs.jsx:124-155 | a success appends the server's blog, empties the form, closes the modal and reloads; a failure shows its reason and keeps list and form |
| AdminBlogs.BlogManagement.HandleToggleStatus | src/admin/addBlogs.jsx:158-198 | sends the negated status; on success exactly the blogs with that id get the new flag, with the matching notice |
| AdminBlogs.BlogManagement.HandleImageUpload | src/admin/addBlogs.jsx:200-224 | only files over 51200 bytes are compressed; the slot gets the file's data URL unless compression fails, which shows the compression error |
| AdminServices.SubmitPath | src/admin/addService.jsx:127-139 | a service being edited is posted to the update endpoint, a new one to the add endpoint |
| AdminServices.SubmitBody | src/admin/addService.jsx:127-139 | the body carries the id iff a service is being edited, and the user id, photo, name and description |
| AdminServices.AfterSubmit | src/admin/addService.jsx:145-152 | an edit replaces the edited service in place; an add appends the saved service |
| AdminServices.StatusToggleAsWrittenLosesDescription | src/admin/addService.jsx:191-195 | as written, toggling overwrites the service's `status` text, the description shown in the list, with a boolean |
| AdminServices.StatusToggle | src/admin/addService.jsx:179-207 | the toggle negates only the matching services' `active` flag and keeps every other field of every service |
| AdminServices.StatusToggleTwice | src/admin/addService.jsx:179-207 | toggling a service off and on again restores the list |
| AdminServices.ServiceManagement.constructor | src/admin/addService.jsx:18-31 | the service screen's initial state |
| AdminServices.ServiceManagement.FetchServices | src/admin/addService.jsx:55-77 | posts the stored user id; the list becomes the server's or the failure text is shown; loading ends |
| AdminServices.ServiceManagement.HandleChange | src/admin/addService.jsx:81-84 | writes exactly the edited form field |
| AdminServices.ServiceManagement.HandleFileChange | src/admin/addService.jsx:86-107 | the image and preview take the processed file unless compression fails, which shows the error |
| AdminServices.ServiceManagement.HandleSubmit | src/admin/addService.jsx:109-170 | without an image nothing is sent; a save updates or appends by the edited id and resets the form; a failure keeps everything |
| AdminServices.ServiceManagement.AfterReply | src/admin/addService.jsx:143-169 | a success replaces the edited service or appends the new one, resets the form and reloads; a failure shows its reason and keeps list, form and edited id |
| AdminServices.ServiceManagement.ResetAfterSave | src/admin/addService.jsx:154-161 | after a save the form, the edited id, the preview and the image are cleared and the form hidden |
| AdminServices.ServiceManagement.HandleEdit | src/admin/addService.jsx:172-177 | editing loads the service's title, status text and image into the form and remembers its id |
| AdminServices.ServiceManagement.HandleStatusChange | src/admin/addService.jsx:179-207 | sends the negated status; on success the list is toggled in place |
| AdminServices.StatusToggleAsWritten | src/admin/addService.jsx:191-195 | as written, each matching service gets the negated flag under `status` and keeps everything else, `active` included; other services are unchanged |
| AdminServices.ServiceManagement.HandleDelete | src/admin/addService.jsx:209-237 | on success exactly the services with that id are removed and the server's message shown |
| AdminServices.ServiceManagement.ToggleForm | src/admin/addService.jsx:256-264 | opening the form resets it; closing it keeps it |
| AdminClients.FetchFailureTextAsWritten | src/admin/addClient.jsx:54-57 | as written, the `\|\|` fallback is never taken: the text is the prefix followed by the server message's text, whatever it is |
| AdminClients.FetchFailureTextAsWrittenShowsUndefined | src/admin/addClient.jsx:54-57 | as written, the fetch failure text ends in "undefined" whenever there is no server message, and then differs from the intended text |
| AdminClients.FetchFailureText | src/admin/addClient.jsx:54-57 | the failure text is the prefix followed by the server's message, or by the error's own message when there is none |
| AdminClients.ClientManagement.constructor | src/admin/addClient.jsx:9-20 | the client screen's initial state |
| AdminClients.ClientManagement.FetchClients | src/admin/addClient.jsx:44-62 | posts the stored user id; the list becomes the server's or the failure text is shown; loading ends |
| AdminClients.ClientManagement.HandleChange | src/admin/addClient.jsx:65-68 | writes exactly the edited form field |
| AdminClients.ClientManagement.HandlePhotoChange | src/admin/addClient.jsx:71-91 | logo and preview take the processed file unless compression fails |
| AdminClients.ClientManagement.HandleAddClient | src/admin/addClient.jsx:94-132 | without a logo nothing is sent; on success the client is appended and the popup closed; on failure the list is kept |
| AdminClients.ClientManagement.AfterAdd | src/admin/addClient.jsx:115-131 | a success appends the server's client, empties the form and preview and closes the popup; a failure shows its reason and keeps the rest |
| AdminClients.ClientManagement.ToggleStatus | src/admin/addClient.jsx:135-163 | sends the negated status; on success exactly the matching clients get the new flag |
| AdminClients.ClientManagement.OpenPopup | src/admin/addClient.jsx:183 | shows the popup and changes nothing else |
| AdminClients.ClientManagement.ClosePopup | src/admin/addClient.jsx:267-268 | hides the popup and clears the error |
| AdminGallery.AddBody | src/admin/Gallery.jsx:104-113 | the add body is active and carries the user id, photo, name and description |
| AdminGallery.GalleryManagement.constructor | src/admin/Gallery.jsx:9-21 | the gallery screen's initial state |
| AdminGallery.GalleryManagement.FetchPhotos | src/admin/Gallery.jsx:44-62 | posts the stored user id; the list becomes the server's or the failure text is shown; loading ends |
| AdminGallery.GalleryManagement.HandleChange | src/admin/Gallery.jsx:66-69 | writes exactly the edited form field |
| AdminGallery.GalleryManagement.HandlePhotoChange | src/admin/Gallery.jsx:71-91 | photo and preview take the processed file unless compression fails |
| AdminGallery.GalleryManagement.HandleAddPhoto | src/admin/Gallery.jsx:93-136 | without a photo nothing is sent; on success the photo is appended and the popup closed |
| AdminGallery.GalleryManagement.AfterAdd | src/admin/Gallery.jsx:114-135 | a success appends the new photo, empties the form and closes the popup; a failure shows its reason and keeps list, form and preview |
| AdminGallery.GalleryManagement.ToggleStatus | src/admin/Gallery.jsx:138-171 | sends the negated status; on success exactly the matching photos get the new flag |
| AdminGallery.GalleryManagement.SetPopup | src/admin/Gallery.jsx:192-208 | opens or closes the popup and clears the error |
| AdminEvents.EventManagement.constructor | src/admin/Events.jsx:7-19 | the event screen's initial state |
| AdminEvents.EventManagement.FetchEvents | src/admin/Events.jsx:21-38 | with no stored user id nothing is sent; otherwise the list becomes the server's or the failure notice is shown, and loading ends |
| AdminEvents.EventManagement.FetchServices | src/admin/Events.jsx:40-49 | the service list becomes the server's, or the failure notice is shown |
| AdminEvents.EventManagement.EditField | src/admin/Events.jsx:137-165 | writes exactly the edited form field |
| AdminEvents.EventManagement.SelectPhoto | src/admin/Events.jsx:182 | the photo and the preview become the file's data URL |
| AdminEvents.EventManagement.HandleAddEvent | src/admin/Events.jsx:51-78 | sends the upload body iff there is a user id and a photo; on success the form is reset, hidden and the list refetched |
| AdminEvents.EventManagement.HandleToggleStatus | src/admin/Events.jsx:80-97 | sends the negated status; on success the list is refetched with the notice |
| AdminEvents.EventManagement.ToggleForm | src/admin/Events.jsx:118 | flips the form's visibility and nothing else |
| AdminTeam.StatusNotice | src/admin/team.jsx:140-157 | the notice says "activated" iff the sent status is truthy, else "deactivated" |
| AdminTeam.TeamManagement.constructor | src/admin/team.jsx:16-31 | the team screen's initial state |
| AdminTeam.TeamManagement.FetchMembers | src/admin/team.jsx:53-67 | posts the stored user id; the list becomes the server's or the failure notice is shown; loading ends |
| AdminTeam.TeamManagement.FetchActiveMembers | src/admin/team.jsx:69-78 | the active list becomes the server's, or is kept on failure |
| AdminTeam.TeamManagement.HandleInputChange | src/admin/team.jsx:85-88 | writes exactly the edited form field |
| AdminTeam.TeamManagement.HandlePhotoChange | src/admin/team.jsx:90-110 | the photo and preview take the compressed file; a failed compression shows the error |
| AdminTeam.TeamManagement.HandleAddMember | src/admin/team.jsx:112-138 | posts the form with the user id; on success it resets the form, hides it and refetches |
| AdminTeam.TeamManagement.HandleToggleStatus | src/admin/team.jsx:140-157 | sends the status it is given, unnegated, and shows the notice for that status |
| AdminTeam.TeamManagement.ToggleMember | src/admin/team.jsx:369-371 | the button sends a status that is truthy iff the member is currently inactive |
| AdminTeam.TeamManagement.SetFormVisible | src/admin/team.jsx:177-289 | shows or hides the form and nothing else |
| AdminAchievements.AchievementsManagement.constructor | src/admin/acheivements.jsx:9-19 | the achievement screen's initial state |
| AdminAchievements.AchievementsManagement.FetchAchievements | src/admin/acheivements.jsx:41-55 | with no stored user id it alerts and sends nothing; otherwise the list becomes the server's and loading ends |
| AdminAchievements.AchievementsManagement.EditField | src/admin/acheivements.jsx:180-206 | writes exactly the edited form field |
| AdminAchievements.AchievementsManagement.HandlePhotoChange | src/admin/acheivements.jsx:106-125 | the photo and preview take the compressed file; a failed compression shows the error |
| AdminAchievements.AchievementsManagement.HandleAddAchievement | src/admin/acheivements.jsx:57-86 | sends the upload body iff there is a user id and a photo; on success it alerts, resets and hides the form and refetches |
| AdminAchievements.AchievementsManagement.HandleToggleStatus | src/admin/acheivements.jsx:88-100 | sends the negated status for the record; on success the list is refetched |
| AdminAchievements.AchievementsManagement.ToggleForm | src/admin/acheivements.jsx:145-155 | opening the form resets it and the preview; closing it keeps them |
| AdminCareer.PopupPositionName | src/admin/career.jsx:338-340 | the popup's title is the selected position's name, or undefined when no position has that id |
| AdminCareer.CareerManagement.constructor | src/admin/career.jsx:7-19 | the career screen's initial state |
| AdminCareer.CareerManagement.ShowNotification | src/admin/career.jsx:39-45 | shows the given message and changes nothing else |
| AdminCareer.CareerManagement.FetchPositions | src/admin/career.jsx:21-37 | with no stored user id nothing is sent; otherwise the list becomes the server's or the failure message shows, and loading ends |
| AdminCareer.CareerManagement.TogglePositionStatus | src/admin/career.jsx:47-60 | sends the id with the user id; on success the list is refetched; every outcome shows its message |
| AdminCareer.CareerManagement.FetchApplications | src/admin/career.jsx:62-78 | on success the applications are shown and the position is selected; on failure the message shows |
| AdminCareer.CareerManagement.ClosePopup | src/admin/career.jsx:324-328 | clears the selected position and nothing else |
| AdminCareer.CareerManagement.EditField | src/admin/career.jsx:161-215 | writes exactly the edited form field |
| AdminCareer.CareerManagement.HandleAddPosition | src/admin/career.jsx:80-111 | sends the form iff there is a user id and every required field is filled; on success it resets, hides and refetches |
| AdminCareer.CareerManagement.SetFormVisible | src/admin/career.jsx:135-233 | shows or hides the form and nothing else |
| AdminEnquiry.SubmitBody | src/admin/enquiry.jsx:76-78 | the body is the inquiry's six fields as entered plus the user id |
| AdminEnquiry.Enquiry.constructor | src/admin/enquiry.jsx:7-17 | the enquiry screen's initial state |
| AdminEnquiry.Enquiry.ShownColumns | src/admin/enquiry.jsx:95-96 | the latest column holds only open enquiries and the resolved column only resolved ones, both newest first, together exactly the enquiries |
| AdminEnquiry.Enquiry.FetchServices | src/admin/enquiry.jsx:24-31 | the service list becomes the server's, or is kept on failure |
| AdminEnquiry.Enquiry.FetchQueries | src/admin/enquiry.jsx:33-44 | posts the stored user id; the list becomes the server's; loading ends |
| AdminEnquiry.Enquiry.ResolveQuery | src/admin/enquiry.jsx:46-56 | posts the query and user ids; refetches iff it succeeded, with the matching alert |
| AdminEnquiry.Enquiry.HandleInputChange | src/admin/enquiry.jsx:58-61 | writes exactly the edited field |
| AdminEnquiry.Enquiry.HandlePurposeChange | src/admin/enquiry.jsx:63-71 | sets the purpose id and the name of the first service with that id, or "" when none has it |
| AdminEnquiry.Enquiry.HandleSubmitQuery | src/admin/enquiry.jsx:73-93 | posts the body; on success it resets the form and refetches; on failure it keeps the form |
| AdminContactUs.ContactUs.constructor | src/admin/contactus.jsx:7-9 | the contact-query screen's initial state |
| AdminContactUs.ContactUs.ShownColumns | src/admin/contactus.jsx:43-44 | the latest column holds only open queries and the resolved column only resolved ones, both newest first, together exactly the queries |
| AdminContactUs.ContactUs.FetchQueries | src/admin/contactus.jsx:15-27 | posts the stored user id; the list becomes the server's or the failure notice shows; loading ends |
| AdminContactUs.ContactUs.ResolveQuery | src/admin/contactus.jsx:29-41 | posts the query and user ids; refetches iff it succeeded, with the matching notice |
| AdminLogin.Login.constructor | src/admin/Login.jsx:20-28 | the login screen's initial state |
| AdminLogin.Login.HandleChange | src/admin/Login.jsx:30-35 | writes exactly the edited credential |
| AdminLogin.Login.HandleRecaptchaChange | src/admin/Login.jsx:37-39 | records the reCAPTCHA token |
| AdminLogin.Login.TogglePasswordVisibility | src/admin/Login.jsx:93-95 | flips the password's visibility and nothing else |
| AdminLogin.Login.HandlePageChange | src/admin/Login.jsx:41-44 | empties storage and goes to the signup page |
| AdminLogin.Login.HandleLogin | src/admin/Login.jsx:46-91 | posts the encrypted credentials and token; a readable answer stores the session and goes to the dashboard; a rejection shows its decrypted message or the fallback; loading ends |
| AdminLogin.Login.AfterAnswer | src/admin/Login.jsx:64-82 | a readable answer shows its message; "Login successful" writes the five session keys and goes to /admin, any other reloads; an unreadable one shows "Login error" |
| AdminLogin.Login.AfterRejection | src/admin/Login.jsx:77-87 | a rejection shows its decrypted message or "Login error"; only the not-verified message stores the entered email and goes to the verify page |
| AdminLogin.WriteSession | src/admin/Login.jsx:64-76 | storage becomes the stored session over the old items |
| AdminSignup.Signup.constructor | src/admin/Signup.jsx:8-20 | the signup screen's initial state |
| AdminSignup.Signup.HandleChange | src/admin/Signup.jsx:22-27 | writes exactly the edited field |
| AdminSignup.Signup.HandleRecaptchaChange | src/admin/Signup.jsx:29-31 | records the reCAPTCHA token |
| AdminSignup.Signup.HandlePageChange | src/admin/Signup.jsx:33-36 | empties storage and goes to `/admin/login`, the corrected path (the source's `/login` is modelled by AdminSignup.LoginLinkAsWrittenGoesHome) |
| AdminSignup.LoginLinkAsWrittenGoesHome | src/admin/Signup.jsx:35 | the link's path as written is undeclared, so the visitor lands on the home page |
| AdminSignup.LoginLinkReachesLogin | src/routes.jsx:73 | the login page's path shows the login page with nothing sending the visitor away |
| AdminSignup.Signup.HandleSignup | src/admin/Signup.jsx:38-67 | without a token nothing is sent; the exact success message stores the email and goes to verification; failures show the server's message; loading ends |
| AdminVerifyOtp.OtpEntry | src/admin/VerifyOTP.jsx:127-132 | the OTP field holds at most six digits, and a typed entry that already is one is kept |
| AdminVerifyOtp.VerifyOtp.constructor | src/admin/VerifyOTP.jsx:21-28 | the OTP form starts with the stored email and an empty code and token |
| AdminVerifyOtp.VerifyOtp.HandleOtpChange | src/admin/VerifyOTP.jsx:30-35 | writes the sanitised code into the form |
| AdminVerifyOtp.VerifyOtp.HandleRecaptchaChange | src/admin/VerifyOTP.jsx:74-76 | records the token; afterwards the submit button (line 148) is enabled iff the token is truthy and no request is in flight |
| AdminVerifyOtp.VerifyOtp.HandleVerify | src/admin/VerifyOTP.jsx:37-72 | posts the encrypted form; a readable answer stores the session and goes to the dashboard; otherwise storage is unchanged and the visitor stays |
| AdminDashboard.RenderComponent | src/admin/Dashboard.jsx:27-50 | a key renders a screen iff it is a menu key, and the event screen is never rendered |
| AdminDashboard.MenuScreensDistinct | src/admin/Dashboard.jsx:52-62 | different menu entries render different screens |
| AdminDashboard.Dashboard.constructor | src/admin/Dashboard.jsx:18-25 | the active screen is the stored one, else "ManageServices", and it is written back to storage |
| AdminDashboard.Dashboard.SelectComponent | src/admin/Dashboard.jsx:114-115 | selecting a menu entry activates and stores it, and closes the sidebar on narrow screens |
| AdminDashboard.Dashboard.ToggleSidebar | src/admin/Dashboard.jsx:75 | flips the sidebar and keeps the active screen |
| AdminDashboard.Dashboard.HandleLogout | src/admin/Dashboard.jsx:64-69 | logging out keeps only the active screen's key in storage and goes to the login page |
| InquiryPage.InquiryErrors | src/pages/Inquiry.jsx:64-76 | each field has an error exactly when its check fails, with that field's message |
| InquiryPage.InquiryErrorsFields | src/pages/Inquiry.jsx:64-76 | name, purpose and message fail iff blank; email iff it does not match the pattern; mobile iff it is not ten digits |
| InquiryPage.InquiryErrorsEmpty | src/pages/Inquiry.jsx:102-108 | the form is accepted iff every field passes its check |
| InquiryPage.InquiryBody | src/pages/Inquiry.jsx:111-120 | the body holds exactly the six fields, with the mobile number as `"<code> <number>"` |
| InquiryPage.SubmittedPhoneSplits | src/pages/Inquiry.jsx:115 | an accepted submission's phone splits back into the code and the ten digits |
| InquiryPage.PurposeOf | src/pages/Inquiry.jsx:45-62 | a service becomes a purpose with its id and name |
| InquiryPage.PurposesOf | src/pages/Inquiry.jsx:45-62 | every service becomes a purpose, in order |
| InquiryPage.Inquiry.constructor | src/pages/Inquiry.jsx:17-25 | the form starts empty with the service it was opened from as its purpose |
| InquiryPage.Inquiry.FetchPurposes | src/pages/Inquiry.jsx:45-62 | the purpose list becomes the services' purposes, or is kept on failure |
| InquiryPage.Inquiry.HandleTextChange | src/pages/Inquiry.jsx:78-88 | writes exactly the edited field |
| InquiryPage.Inquiry.HandleMobileChange | src/pages/Inquiry.jsx:78-88 | the number takes the typed digits when they are at most ten |
| InquiryPage.Inquiry.HandleCCChange | src/pages/Inquiry.jsx:90-100 | the code takes the first five typed characters when they are `+digits`, and ignores anything else |
| InquiryPage.Inquiry.HandlePurposeChange | src/pages/Inquiry.jsx:321-332 | sets the purpose id and the name of the first matching purpose, or "" when none matches |
| InquiryPage.Inquiry.HandleSubmit | src/pages/Inquiry.jsx:102-140 | sends nothing iff some field fails, recording the errors; on status 201 the form resets and the page moves to the services page |
| ContactPage.ContactErrors | src/pages/ContactUS.jsx:34-43 | each field has an error exactly when its check fails, with that field's message |
| ContactPage.ContactErrorsFields | src/pages/ContactUS.jsx:34-43 | name and purpose fail iff blank; email iff it does not match the pattern; mobile iff it is not ten digits |
| ContactPage.ContactErrorsEmpty | src/pages/ContactUS.jsx:87-100 | the form is accepted iff every field passes its check |
| ContactPage.CodeText | src/pages/ContactUS.jsx:104-109 | the code as it appears in the submitted phone |
| ContactPage.ContactBody | src/pages/ContactUS.jsx:104-109 | the body holds exactly name, email, purpose and the `"<code> <number>"` phone |
| ContactPage.ContactUs.constructor | src/pages/ContactUS.jsx:12-19 | the contact form starts empty |
| ContactPage.ContactUs.FillCountryCode | src/pages/ContactUS.jsx:77-84 | an empty code becomes the default, so the code is never empty afterwards |
| ContactPage.ContactUs.ClearError | src/pages/ContactUS.jsx:45-62 | a field's recorded error is removed and the others are kept |
| ContactPage.ContactUs.HandleChange | src/pages/ContactUS.jsx:45-62 | writes the edited field (the number as its digits) and clears that field's error only |
| ContactPage.ContactUs.HandleMobileInput | src/pages/ContactUS.jsx:268-273 | the number takes the typed digits when there are at most ten, clearing its error |
| ContactPage.ContactUs.HandleCCChange | src/pages/ContactUS.jsx:64-74 | the code takes the first five typed characters when they are `+digits`, and ignores anything else |
| ContactPage.ContactUs.HandleSubmit | src/pages/ContactUS.jsx:87-130 | sends nothing iff some field fails; a success shows the message and reloads; anything else alerts |
| CareerPage.FormatPositions | src/pages/Career.jsx:40-48 | positions are formatted iff every one has requirements text; each keeps its fields, with the requirements split on commas and trimmed |
| CareerPage.RequirementsClean | src/pages/Career.jsx:43 | every formatted requirement is trimmed and holds no comma |
| CareerPage.Records | src/pages/Career.jsx:60-63 | the positions' own records, in order |
| CareerPage.ApplicationBody | src/pages/Career.jsx:82-86 | the body holds the applicant's name, email, code, `"<code> <number>"` phone and the position's id |
| CareerPage.Career.constructor | src/pages/Career.jsx:12-20 | the careers page starts with no positions and an empty application |
| CareerPage.Career.FetchPositions | src/pages/Career.jsx:30-58 | well-formed positions are formatted and shown; otherwise the list is kept |
| CareerPage.Career.HandleApplyNow | src/pages/Career.jsx:60-63 | selects the first position with that id, or nothing when none has it |
| CareerPage.Career.HandleNameChange | src/pages/Career.jsx:209 | writes the applicant's name |
| CareerPage.Career.HandleEmailChange | src/pages/Career.jsx:220 | writes the applicant's email |
| CareerPage.Career.HandleMobileChange | src/pages/Career.jsx:247-252 | the number takes the typed digits when there are at most ten |
| CareerPage.Career.HandleCCChange | src/pages/Career.jsx:65-74 | the code takes the first five typed characters when they are `+digits`, and ignores anything else |
| CareerPage.Career.HandleSubmitApplication | src/pages/Career.jsx:76-110 | a missing name, email or number alerts and sends nothing; otherwise the application goes out for the selected position, and the outcome is alerted |
| BlogListing.ActiveBlogs | src/components/Blogs.jsx:265 | keeps exactly the active blogs |
| BlogListing.ActiveBlogsAppend | src/components/Blogs.jsx:265 | the active blogs keep their order: the filter splits over concatenation |
| BlogListing.ActiveBlogsOne | src/components/Blogs.jsx:265 | one blog is kept iff it is active |
| BlogListing.PresentCategories | src/components/Blogs.jsx:269-273 | the truthy categories that some blog has, and only those |
| BlogListing.PresentCategoriesAppend | src/components/Blogs.jsx:269-272 | categories are collected blog by blog, in order |
| BlogListing.PresentCategoriesOne | src/components/Blogs.jsx:269-272 | one blog gives its category iff the category is truthy |
| BlogListing.Categories | src/components/Blogs.jsx:269-273 | "All" first, then each category some blog has, once each, in order of first appearance |
| BlogListing.NothingListed | src/components/Blogs.jsx:265-273 | with no blogs nothing is listed and the menu holds "All" alone |
| BlogListing.SameCategoryIgnoresCase | src/components/Blogs.jsx:305 | the comparison ignores the case of either side, a blog without a text category never matches, and a category matches itself |
| BlogListing.FilterIgnoringCase | src/components/Blogs.jsx:300-306 | "All" shows every blog; otherwise exactly the blogs whose category equals the selection ignoring case |
| BlogListing.FilterIgnoringCaseAppend | src/components/Blogs.jsx:300-306 | the filter keeps the blogs' order: it splits over concatenation |
| BlogListing.FilterIgnoringCaseOne | src/components/Blogs.jsx:300-306 | one blog is shown iff "All" is selected or its category matches ignoring case |
| BlogListing.KeepIgnoringCase | src/components/Blogs.jsx:303-305 | keeps exactly the blogs in the selection's category, ignoring case |
| BlogListing.KeepIgnoringCaseAppend | src/components/Blogs.jsx:303-305 | the case-insensitive selection splits over concatenation |
| BlogListing.KeepIgnoringCaseOne | src/components/Blogs.jsx:303-305 | one blog is kept iff its category matches ignoring case |
| BlogListing.FilterExact | src/components/EventHome.jsx:75-78 | "All" shows every blog; otherwise exactly the blogs in that category |
| BlogListing.FilterExactAppend | src/components/EventHome.jsx:75-78 | the filter keeps the blogs' order: it splits over concatenation |
| BlogListing.FilterExactOne | src/components/EventHome.jsx:75-78 | one blog is shown iff "All" is selected or its category is exactly the selection |
| BlogListing.KeepExact | src/components/EventHome.jsx:78 | keeps exactly the blogs in the selected category |
| BlogListing.KeepExactAppend | src/components/EventHome.jsx:78 | the exact selection splits over concatenation |
| BlogListing.KeepExactOne | src/components/EventHome.jsx:78 | one blog is kept iff its category is exactly the selection |
| BlogListing.ExactWithinIgnoringCase | src/components/EventHome.jsx:75-78 | the exact filter never shows a blog the case-insensitive filter hides |
| BlogListing.KeepExactWithin | src/components/EventHome.jsx:78 | the exact selection is contained in the case-insensitive one |
| BlogListing.FiltersAgreeWithoutCaseVariants | src/components/Blogs.jsx:300-306 | when no blog's category differs from the selection only in case, both filters agree |
| Blogs.Excerpt | src/components/Blogs.jsx:69 | a description of at most ten words is shown whole followed by "..."; a longer one is cut just before a space, followed by a single "..." |
| Blogs.ExcerptKeepsFirstWords | src/components/Blogs.jsx:69 | the excerpt ends in "..." and the words before it are exactly the description's first ten (all of them when fewer) |
| Blogs.Tags | src/components/Blogs.jsx:17-23 | tags are the comma-separated pieces, trimmed, and none for a missing tag field |
| Blogs.PhotoValues | src/components/Blogs.jsx:105 | the popup considers the fields `photo1` to `photo5`, the `k`-th value being that of the `k`-th key |
| Blogs.KeepImages | src/components/Blogs.jsx:105-109 | keeps exactly the photos that are embedded images longer than 100 characters |
| Blogs.KeepImagesAppend | src/components/Blogs.jsx:106-109 | images are taken photo by photo, in order |
| Blogs.KeepImagesOne | src/components/Blogs.jsx:106-109 | one photo gives its text iff it is an embedded image |
| Blogs.KeepImagesSome | src/components/Blogs.jsx:106-109 | some image is kept iff some photo is an embedded image |
| Blogs.KeepImagesTwo | src/components/Blogs.jsx:106-112 | more than one image is kept iff two photos are embedded images |
| Blogs.PopupImages | src/components/Blogs.jsx:105-109 | at most five images, each embedded, and every embedded photo is included |
| Blogs.PopupImagesInOrder | src/components/Blogs.jsx:105-109 | the popup's images are those of `photo1` to `photo5`, taken in that order |
| Blogs.ShowSlider | src/components/Blogs.jsx:111-112 | the slider is used iff two of the five photos are embedded images |
| Blogs.BlogList.constructor | src/components/Blogs.jsx:247-253 | the blog list starts empty and loading, with "All" selected |
| Blogs.BlogList.Shown | src/components/Blogs.jsx:300-306 | the shown blogs are among the loaded ones, and are all of them for "All" |
| Blogs.BlogList.FetchBlogs | src/components/Blogs.jsx:256-287 | the list becomes the active blogs and the categories theirs; loading ends either way |
| Blogs.BlogList.Load | src/components/Blogs.jsx:265-273 | the list becomes exactly the active blogs and the menu their categories; nothing else changes |
| Blogs.BlogList.HandleViewPost | src/components/Blogs.jsx:289-292 | opens the popup on the blog |
| Blogs.BlogList.HandleClosePopup | src/components/Blogs.jsx:294-297 | closes the popup and forgets the blog |
| Blogs.BlogList.ToggleDropdown | src/components/Blogs.jsx:326 | flips the dropdown |
| Blogs.BlogList.SelectCategory | src/components/Blogs.jsx:340-341 | selects the category and closes the dropdown |
| EventHome.EventsPage.constructor | src/components/EventHome.jsx:14-17 | the events strip starts empty with "All" selected |
| EventHome.EventsPage.Shown | src/components/EventHome.jsx:75-78 | the shown blogs are among the loaded ones, and are all of them for "All" |
| EventHome.EventsPage.FetchBlogsAndCategories | src/components/EventHome.jsx:25-55 | with no stored user id nothing is sent; a reply makes the list its active blogs (none when it has no list) with their categories |
| EventHome.EventsPage.ToggleDropdown | src/components/EventHome.jsx:136 | flips the dropdown |
| EventHome.EventsPage.SelectCategory | src/components/EventHome.jsx:150-151 | selects the category and closes the dropdown |
| GalleryPage.FormatCategoryName | src/components/GalleryPage.jsx:27-30 | an absent or empty word gives ""; the result has no space at either end, a space before every capital, and with white space removed it is the word with white space removed |
| GalleryPage.SliceKeepsCapitalsSpaced | src/components/GalleryPage.jsx:29 | a slice that does not start on a capital keeps capitals spaced |
| GalleryPage.TrimKeepsCapitalsSpaced | src/components/GalleryPage.jsx:29 | trimming keeps capitals spaced |
| GalleryPage.FormatWithoutCapitals | src/components/GalleryPage.jsx:27-30 | a word without capitals is only trimmed |
| GalleryPage.FirstWord | src/components/GalleryPage.jsx:42 | `description?.split(' ')[0]` exists iff the description is text, and is its first space-free piece |
| GalleryPage.CategoryNames | src/components/GalleryPage.jsx:38-48 | each entry's formatted category, in order |
| GalleryPage.NonEmpty | src/components/GalleryPage.jsx:45 | `filter(Boolean)` keeps exactly the non-empty names |
| GalleryPage.NonEmptyAppend | src/components/GalleryPage.jsx:45 | names are kept one by one, in order |
| GalleryPage.NonEmptyOne | src/components/GalleryPage.jsx:45 | a name is kept iff it is not empty |
| GalleryPage.Categories | src/components/GalleryPage.jsx:38-48 | "All categories" first, then each non-empty category some entry has, once each, in order of first appearance |
| GalleryPage.ItemOf | src/components/GalleryPage.jsx:50-54 | an entry is an image iff it has a logo, and carries its logo and its category |
| GalleryPage.ItemsOf | src/components/GalleryPage.jsx:50-54 | every entry becomes an item, in order |
| GalleryPage.FilterItems | src/components/GalleryPage.jsx:71-73 | "All categories" shows every item; otherwise exactly the items of that category |
| GalleryPage.FilterItemsAppend | src/components/GalleryPage.jsx:71-73 | the filter keeps the items' order: it splits over concatenation |
| GalleryPage.FilterItemsOne | src/components/GalleryPage.jsx:71-73 | one item is shown iff "All categories" is selected or it is of that category |
| GalleryPage.KeepCategory | src/components/GalleryPage.jsx:73 | keeps exactly the items of the category |
| GalleryPage.KeepCategoryAppend | src/components/GalleryPage.jsx:73 | the category selection splits over concatenation |
| GalleryPage.KeepCategoryOne | src/components/GalleryPage.jsx:73 | one item is kept iff it is of the category |
| GalleryPage.GalleryView.constructor | src/components/GalleryPage.jsx:6-11 | the gallery starts empty and loading with "All categories" selected |
| GalleryPage.GalleryView.Filtered | src/components/GalleryPage.jsx:71-73 | the shown items are among the loaded ones |
| GalleryPage.GalleryView.FetchGalleryItems | src/components/GalleryPage.jsx:32-69 | a list of photos sets the categories and items and ends loading; a reply with no list changes nothing; a failure ends loading |
| GalleryPage.GalleryView.Columns | src/components/GalleryPage.jsx:76-82 | the shown items are dealt round-robin into four balanced columns |
| GalleryPage.GalleryView.SetActiveCategory | src/components/GalleryPage.jsx:71-73 | selects the category and nothing else |
| GalleryPage.GalleryView.OpenModal | src/components/GalleryPage.jsx:14-18 | opens the modal on the item |
| GalleryPage.GalleryView.CloseModal | src/components/GalleryPage.jsx:20-24 | closes the modal and forgets the item |
| GalleryHome.LastTen | src/components/GalleryHome.jsx:34 | `slice(-10)` is the last ten photos (all of them when fewer), in order |
| GalleryHome.ItemOf | src/components/GalleryHome.jsx:35-39 | a photo is an image iff it has a logo, and carries its logo and description |
| GalleryHome.ItemsOf | src/components/GalleryHome.jsx:35-39 | every photo becomes an item, in order |
| GalleryHome.GalleryStrip.constructor | src/components/GalleryHome.jsx:6-9 | the strip starts empty and loading |
| GalleryHome.GalleryStrip.FetchGalleryItems | src/components/GalleryHome.jsx:24-53 | a list of photos shows its last ten and ends loading; a reply with no list changes nothing; a failure ends loading |
| GalleryHome.GalleryStrip.Columns | src/components/GalleryHome.jsx:62-68 | the items are dealt round-robin into four balanced columns |
| GalleryHome.GalleryStrip.OpenModal | src/components/GalleryHome.jsx:12-16 | opens the modal on the item |
| GalleryHome.GalleryStrip.CloseModal | src/components/GalleryHome.jsx:18-22 | closes the modal |
| AchivHome.Newest | src/components/AchivHome.jsx:89-91 | at most six achievements, newest first, all taken from the list |
| AchivHome.NewestAreKept | src/components/AchivHome.jsx:89-91 | every achievement left out is no newer than any one shown |
| AchivHome.Achievements.constructor | src/components/AchivHome.jsx:77-79 | the strip starts empty and loading, with no error |
| AchivHome.Achievements.FetchAchievements | src/components/AchivHome.jsx:81-104 | a list shows its newest six; a reply with no list shows the format error; a failure shows the fetch error; loading always ends |

## Left out

- The network, the server, timers and rendering are not modelled:
  - Every HTTP answer is a parameter of the handler that awaits it.
  - Delayed navigations (`setTimeout`) and message fade-outs are reduced to the effect they end in.
  - Loaders, AOS animations, sliders and styles are not modelled.
- Encryption is symbolic. `Encrypt` seals an object and `Decrypt` opens only sealed text. The AES cipher and its key are not modelled.
- Image handling is reduced to two things: the 51200-byte compression threshold and the possibility that compression yields `null`. Canvas resizing, JPEG quality and `FileReader` are not modelled; the data URL a file reads as is a field of the file.
- Dates are integer stamps given as a function. `new Date(...)` parsing and the comparator's NaN case for unparsable dates are not modelled.
- JavaScript throws when `split`, `trim`, `toLowerCase` or `startsWith` is called on a non-string. The model does not capture these `TypeError`s: such values are treated as absent.
- GalleryPage.FirstWord: a non-string description is treated as having no first word. In the source that case throws and only ends loading.
- Requests posted with no body are modelled as posting an empty object (`map[]`): Career's positions request (src/pages/Career.jsx:33), the gallery page's and the gallery strip's photo requests (src/components/GalleryPage.jsx:35, src/components/GalleryHome.jsx:27-29) and the achievements request (src/components/AchivHome.jsx:84).
- React Router's path matching is modelled as comparing paths after removing trailing slashes and lower-casing ASCII letters (Routes.Normalize). Percent-decoding, dynamic segments and route ranking are not modelled; the table has no dynamic segments, and among equal static paths the first declaration wins.
- Text.ToLower: only the ASCII letters A-Z are lowered. JavaScript's `toLowerCase` also lowers other Unicode letters. This also applies to Routes.Normalize, BlogListing.SameCategoryIgnoringCase and the filters built on it.
- QueryBoard.SortNewestFirst: its contract states a newest-first permutation only. That `Array.prototype.sort` keeps queries with equal times in their original order is not stated.
- AdminClients.ClientManagement.FetchClients: the handler shows the corrected failure text (AdminClients.FetchFailureText). The source's text, which prints "undefined" when there is no server message, is AdminClients.FetchFailureTextAsWritten; see Findings.
- AdminServices.ServiceManagement.HandleStatusChange: on success the handler applies the corrected toggle, which negates `active`. The source's update, which writes the flag into `status`, is AdminServices.StatusToggleAsWritten; see Findings.
- AdminSignup.Signup.HandlePageChange: the handler goes to `/admin/login`. The source's `/login`, which the catch-all sends to `/`, is AdminSignup.LoginLinkAsWrittenGoesHome; see Findings.
- BlogListing.ActiveBlogs: its own contract states membership and a sub-multiset. Order and multiplicity are stated by BlogListing.ActiveBlogsAppend and BlogListing.ActiveBlogsOne.
- BlogListing.PresentCategories: its own contract states membership. Order and multiplicity are stated by BlogListing.PresentCategoriesAppend and BlogListing.PresentCategoriesOne.
- BlogListing.FilterIgnoringCase: its own contract states membership and a sub-multiset. Order and multiplicity are stated by BlogListing.FilterIgnoringCaseAppend and BlogListing.FilterIgnoringCaseOne, and likewise for BlogListing.KeepIgnoringCase.
- BlogListing.KeepIgnoringCase: order and multiplicity are stated by BlogListing.KeepIgnoringCaseAppend and BlogListing.KeepIgnoringCaseOne.
- BlogListing.FilterExact: its own contract states membership and a sub-multiset. Order and multiplicity are stated by BlogListing.FilterExactAppend and BlogListing.FilterExactOne.
- BlogListing.KeepExact: order and multiplicity are stated by BlogListing.KeepExactAppend and BlogListing.KeepExactOne.
- Blogs.KeepImages: its own contract states membership and length. Order and multiplicity are stated by Blogs.KeepImagesAppend and Blogs.KeepImagesOne.
- Blogs.PopupImages: its own contract states membership and length. Order is stated by Blogs.PopupImagesInOrder.
- GalleryPage.NonEmpty: its own contract states membership. Order and multiplicity are stated by GalleryPage.NonEmptyAppend and GalleryPage.NonEmptyOne.
- GalleryPage.FilterItems: its own contract states membership and a sub-multiset. Order and multiplicity are stated by GalleryPage.FilterItemsAppend and GalleryPage.FilterItemsOne, and likewise for GalleryPage.KeepCategory.
- GalleryPage.KeepCategory: order and multiplicity are stated by GalleryPage.KeepCategoryAppend and GalleryPage.KeepCategoryOne.
- The reCAPTCHA check in `handleLogin` is commented out in the source, so the model's login posts whatever token it has. Signup does enforce it.
- `handleCCChange`'s fallback to "+91" is unreachable: only "+" and `+digits` get through its test, and both are non-empty. The model has no such branch.
- A login response missing `token` or `id` stores the text "undefined", which the route guards accept (Routes.SessionPassesProtectedRoute).
- InquiryPage.Inquiry.constructor: the router location state carrying the selected service is taken as present. The source would throw without it.
- AdminTeam.TeamManagement.HandleToggleStatus: it sends the status it is given, as the source does. The negation happens at the call site, which is modelled by ToggleMember.
- The dashboard's screens are identified by name: `RenderComponent` maps a menu key to the screen it renders. The embedded screens are the other modules, not nested objects.
- Masonry.GetColumns and the `Columns` methods that use it work on sequences, not on the rendered layout.

## Findings

| source | as written | input that shows it | evidently intended | confidence | as-written member | corrected member |
|---|---|---|---|---|---|---|
| src/admin/addClient.jsx:54-57 | `"Failed to fetch clients. " + error.response?.data?.message \|\| error.message`: `+` binds before `\|\|`, so the left side is always a non-empty string | a failure with no response body shows "Failed to fetch clients. undefined" | the prefix followed by the server's message, or by the error's own message | high; not executed | AdminClients.FetchFailureTextAsWrittenShowsUndefined | AdminClients.FetchFailureText |
| src/admin/addService.jsx:191-195 | the status toggle writes the negated flag into `status`, the field holding the description that line 435 renders | toggling service `s1` whose `status` is "Catering: full service" replaces that text with a boolean | negate the service's `active` flag and keep its description | medium; not executed | AdminServices.StatusToggleAsWrittenLosesDescription | AdminServices.StatusToggleTwice |
| src/routes.jsx:75-76 | unguarded routes for `/admin/verify` and `/admin` are declared before the guarded ones at lines 79-94, and the router picks the first of equal rank | visiting `/admin` with empty storage shows the dashboard with no redirect | the dashboard and the OTP page reachable only through their guards | medium; not executed | Routes.AdminUnguardedAsWritten | Routes.AdminGuarded |
| src/admin/Signup.jsx:35 | the "log in" link loads `/login`, a path the route table does not declare | clicking the link lands on the catch-all, which sends the visitor to `/` | the login page at `/admin/login`, the path the login screen itself lives on | high; not executed | AdminSignup.LoginLinkAsWrittenGoesHome | AdminSignup.LoginLinkReachesLogin |
