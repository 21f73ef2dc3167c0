# movie-review-frontend, modelled in Dafny

A model of the logic inside a React front end for a movie review site. The
logic covers:

- the session store, meaning the `token` and `user` browser-storage slots;
- the route guard and the route table;
- the validation chains and list updates inside the page and component event handlers.

Every server call is an input: the value it settles to (`Result<…, Thrown>`).
A dialog answer (`window.confirm`) is an input boolean. The JWT decoder is an
oracle giving the `exp` claim, and the clock is `nowMs`, an integer number of
milliseconds.

Modules follow the source files:

- `Session` covers `authService.js` and the storage helpers of `api.js`. Its class `SessionStore` holds the two slots.
- `Endpoints` covers the URLs and headers of `api.js`.
- `Routes` covers `ProtectedRoute` and the route table of `App.jsx`.
- Each page or component has one module: `RegisterPage`, `LoginPage`, `MovieFormPage`, `HomePage`, `AdminDashboard`, `MovieDetails`, `MyReviews`, `ReviewItem`, `ReviewForm` and `ProfilePage`.
  - Each of these modules has a class whose fields are the component's `useState` variables.
  - Each handler is a method that states the whole new state.
- Shared modules:
  - `Text`: `trim`, `split`, `join`, `toLowerCase` and `includes` on `seq<char>`.
  - `Lists`: `filter` and de-duplication through a `Set`.
  - `Errors`: what axios and the services throw, and `err.message || fallback`.
  - `Catalog`: the records.
  - `Stars`: the five-star loop.

Two behaviours of the code are modelled as written, because they differ from
what the surrounding code expects:

- **The login redirect drops the return path.** The guard redirects to `/login` without `state`, but the login page reads `location.state.from`. `LoginPage.ReturnPathIsLost` shows that a sign-in reached through the guard always lands on `/`.
- **A corrupt `user` slot throws.** `getCurrentUser` parses the slot without a guard, so corrupt text makes it throw. `Session.CurrentUser` returns `Failure` in that case, and so do the admin checks built on it.

The auth service's `isAuthenticated` checks the token's expiry. The API
client's `isAuthenticated` and the route guard do not.

`ReviewForm` reads the context's `isAuthenticated` without calling it. Because
`AuthContext` is not part of this model, it is an input boolean here.

The form reads the `user` record even when it is absent. Reading `user.id`
then throws a `TypeError`, whose message the page shows. That case is modelled.

The validation chains with more than one check are functions, each proved to
accept exactly the valid input and otherwise to name the first failing check:

- `RegisterPage.Validate`
- `ReviewForm.Check`
- `MovieFormPage.PosterProblem`

The single checks are stated where they are made: the empty-field check in
the method `LoginPage.LoginPage.HandleSubmit`, the password confirmation in
the method `ProfilePage.ProfilePage.HandlePasswordSubmit`, and the required
fields in the predicate `MovieFormPage.MissingRequired`, which the method
`MovieFormPage.MovieFormPage.HandleSubmit` uses.

The actor list of the movie form is parsed by `MovieFormPage.ParseActors`.
`MovieFormPage.ParseActorsKeepsPieces` proves that for any text it keeps
exactly the comma-separated pieces that are not blank, trimmed, as often as
they occur and in their order. `MovieFormPage.ActorsRoundTrip` proves that
parsing the `join(', ')` of clean names gives the names back.

The home page's featured strip is `HomePage.Featured`:

- at most five movies, each with a poster;
- sorted by rating, highest first;
- no movie left out rates above one that was kept.

The "Edited on" note of the review list is `MyReviews.ShowsEditedNote`. It
shows exactly when `updatedAt` differs from `createdAt`.

## Model

| member | source | states |
|---|---|---|
| Errors.MessageOr | src/pages/RegisterPage.jsx:59 | `err.message \|\| fallback`: the message when it is a non-empty string, the fallback in every other case (both directions); never empty when the fallback is not |
| Errors.MessageText | src/pages/AdminDashboardPage.jsx:44 | a message in a template literal is the message, or "undefined" when the thrown value has none |
| Errors.ServiceFailure | src/services/authService.js:42 | a failure with a server response is rethrown as the response body, and exactly those; any other failure as its bare message string |
| Errors.BareFailureShowsFallback | src/services/authService.js:42 | a failure with no server response reaches the page as a string without `.message`, so the page shows its fallback, or "undefined" in a template |
| Session.CurrentUser | src/services/authService.js:54-58 | no user when the slot is absent or empty (iff); the stored record when one is stored; a parse failure exactly when the slot holds other non-empty text |
| Session.Authenticated | src/services/authService.js:61-72 | false without a token or when decoding yields no `exp`; otherwise true iff `exp` seconds lie strictly after now |
| Session.ExpiryIsStrict | src/services/authService.js:67-68 | a token is valid one millisecond before `exp` and invalid at `exp` itself |
| Session.ExpiryInSeconds | src/services/authService.js:67-68 | read in whole seconds, the check is `exp > now` |
| Session.AuthIsAdmin | src/services/authService.js:75-78 | true iff a serialised user whose role is "ADMIN" is stored; throws exactly when the parse throws |
| Session.ApiAuthenticated | src/services/api.js:228-238 | true iff the token slot holds a non-empty string; nothing is decoded |
| Session.AuthenticatedIsStricter | src/services/api.js:228-238 | whatever the auth service accepts the API client accepts too; a token that does not decode is accepted only by the API client |
| Session.ApiRole | src/services/api.js:240-248 | the stored role, with an absent or empty slot read as `{}` and so no role; throws exactly when the auth service's parse throws |
| Session.ApiIsAdmin | src/services/api.js:240-243 | true exactly when a stored user has role ADMIN; throws exactly when the auth service's parse throws |
| Session.ApiIsUser | src/services/api.js:245-248 | true exactly when a stored user has role USER; throws exactly when the auth service's parse throws |
| Session.RolesExclusive | src/services/api.js:240-248 | `isAdmin` and `isUser` never both hold, and neither holds with no stored user |
| Session.AdminChecksAgree | src/services/api.js:240-243 | the API client's `isAdmin` gives the same answer as the auth service's, including the throw |
| Session.RegisterFailure | src/services/authService.js:19-28 | the three-way classification of registration errors: the response body, "No response received from server", or an `Error` with the original message |
| Session.LoginFailure | src/services/authService.js:42 | login errors become the response body, or else the bare message |
| Session.SessionStore.constructor | src/services/authService.js:54-56 | the slots start as the page load finds them |
| Session.SessionStore.Persist | src/services/authService.js:12-16 | both slots are written, with the token and the whole response, only when the response carries a token; otherwise neither changes |
| Session.SessionStore.Register | src/services/authService.js:7-30 | success returns the response and stores it iff it has a token; failure returns the classified error and leaves storage unchanged |
| Session.SessionStore.Login | src/services/authService.js:33-44 | as for registration, with the login error mapping |
| Session.SessionStore.ApiLogout | src/services/api.js:223-226 | both slots end absent whatever they held, so `getCurrentUser` then returns null |
| Session.SessionStore.Logout | src/services/authService.js:47-51 | both slots end absent, independent of the prior state (hence idempotent); afterwards nobody is authenticated at any time and `isAdmin` is false |
| Endpoints.Url | src/services/api.js:85-106 | every URL is `BASE_URL` followed by the operation's path |
| Endpoints.Header | src/services/api.js:6-12 | exactly two headers: Authorization "Bearer " + the stored token (or "null"), and Content-Type "application/json" |
| Endpoints.UploadHeader | src/services/api.js:152-155 | the upload keeps `getHeader`'s keys and Authorization, and Content-Type is overridden to "multipart/form-data" |
| Endpoints.RequestFor | src/services/api.js:17-218 | each operation's verb and URL, credentials exactly on the operations that send `getHeader()`, with the upload's content type |
| Endpoints.SignedOutSendsBearerNull | src/services/api.js:7-9 | with no stored token a credentialed request still carries "Bearer null" |
| Endpoints.MovieUrlInjective | src/services/api.js:91-94 | different movie ids give different movie URLs |
| Endpoints.IdsAreNotEncoded | src/services/api.js:91-106 | ids and titles are pasted in unencoded: the id "upload" names the upload URL, "genre/Drama" the genre URL, and a title can add query parameters |
| Routes.Guard | src/App.jsx:25-41 | exactly one of four outcomes, in the order loading, then user, then admin: loading iff loading; `/login` with replace and no state iff no user; `/` iff a non-admin on an admin route; the children otherwise |
| Routes.SignedInUserSeesContent | src/App.jsx:25 | with the default `requireAdmin = false` a present user always sees the content once loading ends |
| Routes.AccessIn | src/App.jsx:52-101 | a guarded access comes from a route of the table that the path fits |
| Routes.FirstFit | src/App.jsx:52-101 | the first route a path fits decides its access |
| Routes.ProfileNeedsUser | src/App.jsx:60-67 | `/profile` needs a user only |
| Routes.MyReviewsNeedsUser | src/App.jsx:68-75 | `/my-reviews` needs a user only |
| Routes.DashboardNeedsAdmin | src/App.jsx:78-85 | `/admin/dashboard` needs an admin |
| Routes.AddMovieNeedsAdmin | src/App.jsx:86-93 | `/admin/movies/add` needs an admin |
| Routes.EditMovieNeedsAdmin | src/App.jsx:94-101 | `/admin/movies/edit/:id` needs an admin, for every id |
| Routes.HomeIsPublic | src/App.jsx:52 | `/` is not guarded |
| Routes.LoginIsPublic | src/App.jsx:53 | `/login` is not guarded |
| Routes.MovieDetailsIsPublic | src/App.jsx:56 | `/movies/:id` is not guarded |
| Routes.AdminOnlyUnderAdmin | src/App.jsx:76-101 | only paths under `admin` are admin-only |
| Routes.Visit | src/App.jsx:52-101 | a public path renders directly; a guarded path goes through the guard with the table's `requireAdmin` |
| Routes.NonAdminKeptFromDashboard | src/App.jsx:36-38 | a signed-in non-admin sent to the dashboard lands on `/` |
| RegisterPage.Update | src/pages/RegisterPage.jsx:19-22 | `handleChange` sets the named field and leaves every other field unchanged |
| RegisterPage.Validate | src/pages/RegisterPage.jsx:28-41 | the form may be sent iff all four fields are filled, the passwords match and the password has at least 6 characters; otherwise the first failing check names the error |
| RegisterPage.PayloadOf | src/pages/RegisterPage.jsx:47-54 | the payload carries name, email and password verbatim with role "USER"; the confirmation is not sent |
| RegisterPage.RegisterPage.constructor | src/pages/RegisterPage.jsx:10-17 | an empty form, no error, not loading |
| RegisterPage.RegisterPage.HandleChange | src/pages/RegisterPage.jsx:19-22 | only the named field changes |
| RegisterPage.RegisterPage.HandleSubmit | src/pages/RegisterPage.jsx:24-64 | an invalid form shows its first error and calls nothing; a valid one sends the payload, navigates to `/` on success, shows `err.message` or "Registration failed" on failure, and ends not loading |
| LoginPage.RedirectTarget | src/pages/LoginPage.jsx:12 | `location.state.from.pathname` when present and non-empty, `/` otherwise |
| LoginPage.Update | src/pages/LoginPage.jsx:21-24 | `handleChange` sets the named field only |
| LoginPage.ReturnPathIsLost | src/App.jsx:33 | every guarded path visited signed out redirects to `/login` with no state, so the login page's target is `/` |
| LoginPage.LoginPage.constructor | src/pages/LoginPage.jsx:14-19 | an empty form, no error, not loading |
| LoginPage.LoginPage.HandleChange | src/pages/LoginPage.jsx:21-24 | only the named field changes |
| LoginPage.LoginPage.HandleSubmit | src/pages/LoginPage.jsx:26-48 | an empty field shows "Please fill in all fields" and calls nothing; otherwise the form is sent, success navigates to the target with replace, failure shows `err.message` or "Invalid email or password", and loading ends |
| MovieFormPage.TrimEach | src/pages/MovieFormPage.jsx:140 | `.map(a => a.trim())`: one trimmed part per part, in place |
| MovieFormPage.CleanParts | src/pages/MovieFormPage.jsx:140 | gives no more parts than it is given, each non-empty and trimmed; which parts survive is `CleanPartsKeepsPieces` |
| MovieFormPage.CleanPartsInOrder | src/pages/MovieFormPage.jsx:140 | the kept parts are the trimmed parts with some left out, the rest in their order |
| MovieFormPage.CleanPartsKeepsEach | src/pages/MovieFormPage.jsx:140 | every part that does not trim to nothing is kept, trimmed |
| MovieFormPage.CleanPartsCounts | src/pages/MovieFormPage.jsx:140 | each non-empty trimmed part is kept as often as it occurs among the trimmed parts, and the empty string never |
| MovieFormPage.CleanPartsKeepsPieces | src/pages/MovieFormPage.jsx:140 | `.map(a => a.trim()).filter(a => a)` keeps exactly the parts that do not trim to nothing, trimmed, as often as they occur, in their order |
| MovieFormPage.CleanPartsAddNoComma | src/pages/MovieFormPage.jsx:140 | cleaning adds no comma |
| MovieFormPage.ParseActors | src/pages/MovieFormPage.jsx:140 | every parsed actor is non-empty, has no white space at either end and contains no comma; which pieces they are is `ParseActorsKeepsPieces` |
| MovieFormPage.ParseActorsKeepsPieces | src/pages/MovieFormPage.jsx:140 | the actors read from the text are its comma-separated pieces that are not blank, trimmed, each as often as it occurs, in their order |
| MovieFormPage.EmptyPieceDropped | src/pages/MovieFormPage.jsx:140 | `"a,,b"` reads as the two actors `a` and `b`: the empty piece between the commas is dropped |
| MovieFormPage.ActorsRoundTrip | src/pages/MovieFormPage.jsx:48 | parsing the `join(', ')` of non-empty, trimmed, comma-free names gives the same names back |
| MovieFormPage.IsEditMode | src/pages/MovieFormPage.jsx:12 | `!!id`: the page edits a movie when the route gives it a non-empty id |
| MovieFormPage.PosterProblem | src/pages/MovieFormPage.jsx:79-90 | a file is accepted iff its type contains "image" and its size is at most 5 MiB; a non-image is refused first, then an oversized image |
| MovieFormPage.PosterLimitIsInclusive | src/pages/MovieFormPage.jsx:85 | exactly 5 MiB is accepted and one byte more is refused |
| MovieFormPage.FormOf | src/pages/MovieFormPage.jsx:44-53 | the form filled from a fetched movie: title, director, genre, release year and synopsis, the actors joined with ", ", and the image as the poster path |
| MovieFormPage.DataOf | src/pages/MovieFormPage.jsx:137-146 | the data sent carries the form's title, director, genre, release year and synopsis, the parsed actors and the chosen image |
| MovieFormPage.UnchangedEditKeepsActors | src/pages/MovieFormPage.jsx:48 | saving an edited movie unchanged sends back its clean actor list |
| MovieFormPage.MissingRequired | src/pages/MovieFormPage.jsx:117 | the form is refused when the title, director or genre is empty |
| MovieFormPage.SaveCall | src/pages/MovieFormPage.jsx:149-153 | edit mode updates the movie with that id; otherwise a movie is created |
| MovieFormPage.MovieFormPage.constructor | src/pages/MovieFormPage.jsx:12-29 | an empty form for the current year; `initialLoading` iff edit mode |
| MovieFormPage.MovieFormPage.Mount | src/pages/MovieFormPage.jsx:31-67 | a non-admin goes to `/` and nothing is fetched; in edit mode the movie is fetched and fills the form and preview, or the error is "Failed to fetch movie details"; initial loading ends |
| MovieFormPage.MovieFormPage.HandlePosterChange | src/pages/MovieFormPage.jsx:75-99 | an acceptable file is selected; a refused one leaves the selection unchanged and sets its error; no file changes nothing |
| MovieFormPage.MovieFormPage.HandleResetPoster | src/pages/MovieFormPage.jsx:102-111 | the selection is cleared and the preview becomes the poster path, or null when it is empty |
| MovieFormPage.MovieFormPage.HandleSubmit | src/pages/MovieFormPage.jsx:113-162 | a missing title, director or genre shows its error with no upload and no save; an upload happens only with a selected file, and its failure stops the save; the save goes to the update or create call with the parsed data, then navigates to the dashboard or shows the error; loading ends |
| MovieFormPage.MovieFormPage.Save | src/pages/MovieFormPage.jsx:149-161 | the save call, then the dashboard on success or the message on failure, and loading ends |
| HomePage.SourceFor | src/pages/HomePage.jsx:30-34 | the whole catalogue iff no genre is selected, else that genre |
| HomePage.HasPoster | src/pages/HomePage.jsx:53 | a movie has a poster when its URL is present and does not trim to nothing |
| HomePage.Posters | src/pages/HomePage.jsx:52-54 | the movies with a poster, in order, each as often as it occurs in the data, and no other movie |
| HomePage.Key | src/pages/HomePage.jsx:60 | the sort key is the rating, or 0 when there is none |
| HomePage.Insert | src/pages/HomePage.jsx:59-61 | one insertion step of the sort keeps the same movies |
| HomePage.InsertKeepsSorted | src/pages/HomePage.jsx:59-61 | inserting into a list sorted by rating keeps it sorted |
| HomePage.SortByRating | src/pages/HomePage.jsx:59-61 | a permutation of the input, sorted by non-increasing rating with a missing rating counting as 0 |
| HomePage.CutOfSorted | src/pages/HomePage.jsx:59-62 | a prefix of a sorted list is sorted, drawn from it, and rates at least as high as everything cut off |
| HomePage.Featured | src/pages/HomePage.jsx:50-71 | min(5, poster movies) movies, each from the data with a poster, sorted by rating, and no poster movie left out rates above one that was kept |
| HomePage.GenreColumn | src/pages/HomePage.jsx:75 | each movie's genre, in order |
| HomePage.Genres | src/pages/HomePage.jsx:75 | no duplicates, every genre of the data present, nothing else, in order of first occurrence |
| HomePage.HomePage.constructor | src/pages/HomePage.jsx:9-15 | empty lists, no selection, loading |
| HomePage.HomePage.HandleGenreChange | src/pages/HomePage.jsx:98-100 | only the selection changes |
| HomePage.HomePage.FetchMovies | src/pages/HomePage.jsx:17-91 | `isLoggedIn` iff a token is stored; fetches by the selection; empty data empties movies and featured; featured and genres are recomputed only with no genre selected; an error empties featured and shows its message; loading ends |
| AdminDashboard.Matches | src/pages/AdminDashboardPage.jsx:50-52 | a movie matches when its lower-cased title, director or genre includes the lower-cased term |
| AdminDashboard.FilteredMovies | src/pages/AdminDashboardPage.jsx:49-53 | an order-preserving subsequence holding every movie whose lower-cased title, director or genre includes the lower-cased term, as often as it occurs, and no other movie |
| AdminDashboard.EmptySearchShowsAll | src/pages/AdminDashboardPage.jsx:49-53 | an empty search shows every movie |
| AdminDashboard.SearchIgnoresCase | src/pages/AdminDashboardPage.jsx:50-52 | searching a term and its lower-case form show the same rows |
| AdminDashboard.Without | src/pages/AdminDashboardPage.jsx:42 | every movie with the id is removed and every other stays, as often as it occurred, in order |
| AdminDashboard.AdminDashboard.constructor | src/pages/AdminDashboardPage.jsx:10-13 | no movies, no search, loading |
| AdminDashboard.AdminDashboard.Mount | src/pages/AdminDashboardPage.jsx:15-36 | a non-admin goes to `/` and nothing is fetched; an admin gets the movies or "Failed to fetch movies", and loading ends |
| AdminDashboard.AdminDashboard.HandleSearch | src/pages/AdminDashboardPage.jsx:93 | only the search term changes |
| AdminDashboard.AdminDashboard.HandleDeleteMovie | src/pages/AdminDashboardPage.jsx:38-47 | a declined dialog makes no call and changes nothing; a successful delete removes that id; a failure keeps the list and shows "Failed to delete movie: " + the message |
| MovieDetails.WithRating | src/pages/MovieDetailsPage.jsx:46-52 | the count goes up by exactly one, the rating total grows by the new rating, and every other field is copied |
| MovieDetails.AddedReviewKeepsMean | src/pages/MovieDetailsPage.jsx:48-51 | if the average was the mean of the ratings so far, it becomes the mean with the new rating |
| MovieDetails.FirstReviewSetsAverage | src/pages/MovieDetailsPage.jsx:48-51 | a first review's rating becomes the average |
| MovieDetails.Replaced | src/pages/MovieDetailsPage.jsx:56-62 | same length and order; exactly the reviews with the updated id are replaced |
| MovieDetails.Removed | src/pages/MovieDetailsPage.jsx:64-66 | every review with the id is removed and the rest stay, as often as they occurred, in order |
| MovieDetails.MovieDetails.constructor | src/pages/MovieDetailsPage.jsx:12-17 | no movie, no reviews, loading |
| MovieDetails.MovieDetails.Fetch | src/pages/MovieDetailsPage.jsx:19-40 | the reviews are asked for only when the movie arrived; either failure shows "Failed to fetch movie details"; loading ends |
| MovieDetails.MovieDetails.HandleReviewAdded | src/pages/MovieDetailsPage.jsx:42-54 | the new review heads the old list; a loaded movie takes the rating in, and with no movie only the list changes |
| MovieDetails.MovieDetails.HandleReviewUpdated | src/pages/MovieDetailsPage.jsx:56-62 | the list becomes the replaced list and nothing else changes |
| MovieDetails.MovieDetails.HandleReviewDeleted | src/pages/MovieDetailsPage.jsx:64-66 | the list loses that id and nothing else changes |
| Stars.Stars | src/pages/MyReviewsPage.jsx:67-78 | five stars; star i is lit iff i <= rating |
| Stars.LitPrefix | src/pages/MyReviewsPage.jsx:67-78 | the first n stars light the rating held between 0 and n |
| Stars.LitCount | src/pages/MyReviewsPage.jsx:67-78 | an integer rating lights min(max(rating, 0), 5) stars |
| Stars.RenderStars | src/components/ReviewItem.jsx:26-37 | the push loop builds exactly the five stars, lighting the clamped rating's count |
| MyReviews.NoUserId | src/pages/MyReviewsPage.jsx:17 | the reviews are not fetched when there is no user, no id, or the id 0, which JavaScript also treats as missing |
| MyReviews.ShowsEditedNote | src/pages/MyReviewsPage.jsx:148 | the "Edited on" note is shown iff the review's update time differs from its creation time |
| MyReviews.WithoutId | src/pages/MyReviewsPage.jsx:46 | the reviews whose id is `deleteId` are removed and the rest stay, as often as they occurred, in order |
| MyReviews.NothingSelectedRemovesNothing | src/pages/MyReviewsPage.jsx:46 | a confirmation with no selected review removes nothing |
| MyReviews.MyReviews.constructor | src/pages/MyReviewsPage.jsx:9-13 | no reviews, loading, no selection, dialog closed |
| MyReviews.MyReviews.Fetch | src/pages/MyReviewsPage.jsx:15-36 | with no user or no id nothing is fetched and loading ends; otherwise the user's reviews or the load error |
| MyReviews.MyReviews.HandleDeleteClick | src/pages/MyReviewsPage.jsx:38-41 | remembers the id and opens the dialog; nothing else changes |
| MyReviews.MyReviews.HandleDeleteConfirm | src/pages/MyReviewsPage.jsx:43-53 | success removes the selected reviews, closes the dialog and clears the selection; failure keeps list, dialog and selection and sets the error |
| MyReviews.MyReviews.HandleDeleteCancel | src/pages/MyReviewsPage.jsx:55-58 | closes the dialog and clears the selection; the list is unchanged |
| ReviewItem.IsAuthor | src/components/ReviewItem.jsx:80 | the edit and delete controls show for a signed-in user who wrote the review or is an admin |
| ReviewItem.WhoMayEdit | src/components/ReviewItem.jsx:80 | nobody signed out, every admin, and otherwise exactly the review's own user |
| ReviewItem.MissingIdsMatch | src/components/ReviewItem.jsx:80 | a user record without an id counts as the author of every review without a user id |
| ReviewItem.ReviewItem.constructor | src/components/ReviewItem.jsx:8-13 | not editing, the buffer holds the review's rating and comment |
| ReviewItem.ReviewItem.StartEditing | src/components/ReviewItem.jsx:148 | editing starts; the buffer is kept |
| ReviewItem.ReviewItem.CancelEditing | src/components/ReviewItem.jsx:128 | editing ends; the buffer is kept |
| ReviewItem.ReviewItem.HandleRatingChange | src/components/ReviewItem.jsx:40-42 | the rating changes and the comment is kept |
| ReviewItem.ReviewItem.HandleCommentChange | src/components/ReviewItem.jsx:45-47 | the comment changes and the rating is kept |
| ReviewItem.ReviewItem.HandleUpdate | src/components/ReviewItem.jsx:50-65 | a blank comment shows "Comment cannot be empty", sends nothing and stays in edit mode; success ends editing and hands on the server's review; failure shows `err.message` or "Failed to update review" |
| ReviewItem.ReviewItem.HandleDelete | src/components/ReviewItem.jsx:68-77 | a call only after confirmation; success hands on the review's id, failure shows `err.message` or "Failed to delete review" |
| ReviewForm.Check | src/components/ReviewForm.jsx:18-31 | the review may be sent iff signed in, rated and commented; otherwise the first failing check of that order names the error |
| ReviewForm.WhitespaceCommentRefused | src/components/ReviewForm.jsx:28 | a rated review is refused for its comment iff `comment.trim()` is empty |
| ReviewForm.Highlighted | src/components/ReviewForm.jsx:105 | a star is highlighted when it is at most the hovered star, or the rating when no star is hovered |
| ReviewForm.HoverOverridesRating | src/components/ReviewForm.jsx:105 | star i is highlighted iff i <= the hovered star, or the rating when none is hovered |
| ReviewForm.ReviewForm.constructor | src/components/ReviewForm.jsx:8-13 | rating 0, empty comment, nothing hovered, no messages |
| ReviewForm.ReviewForm.StarClick | src/components/ReviewForm.jsx:92-100 | clicking star i of 1..5 sets the rating to i and nothing else |
| ReviewForm.ReviewForm.HoverStar | src/components/ReviewForm.jsx:108-109 | entering a star sets the hover, leaving resets it to 0 |
| ReviewForm.ReviewForm.HandleCommentChange | src/components/ReviewForm.jsx:126 | only the comment changes |
| ReviewForm.ReviewForm.HandleSubmit | src/components/ReviewForm.jsx:15-63 | a failed check shows its error and sends nothing; otherwise it sends movieId, user id, rating and comment, resets the rating to 0 and the comment to "" on success, keeps them and shows the message on failure, and ends not loading |
| ProfilePage.OrEmpty | src/pages/ProfilePage.jsx:31-33 | a missing field reads as "" |
| ProfilePage.ProfileOf | src/pages/ProfilePage.jsx:30-34 | every missing profile field shows as empty |
| ProfilePage.SetProfile | src/pages/ProfilePage.jsx:49-55 | sets the named profile field and leaves the others |
| ProfilePage.SetPassword | src/pages/ProfilePage.jsx:57-63 | sets the named password field and leaves the others |
| ProfilePage.ProfilePage.constructor | src/pages/ProfilePage.jsx:8-22 | empty profile and passwords, loading, no messages |
| ProfilePage.ProfilePage.Fetch | src/pages/ProfilePage.jsx:25-47 | the profile is fetched only with a user; it is shown defaulted, or the load error |
| ProfilePage.ProfilePage.HandleProfileChange | src/pages/ProfilePage.jsx:49-55 | only the named profile field changes |
| ProfilePage.ProfilePage.HandlePasswordChange | src/pages/ProfilePage.jsx:57-63 | only the named password field changes |
| ProfilePage.ProfilePage.HandleProfileSubmit | src/pages/ProfilePage.jsx:65-82 | its own messages are cleared first, the profile is sent, and success or failure sets the matching message |
| ProfilePage.ProfilePage.HandlePasswordSubmit | src/pages/ProfilePage.jsx:84-111 | its own messages are cleared first; mismatched new passwords show "New passwords do not match." and send nothing; success clears all three fields; failure keeps them and shows the error |
| Text.Trim | src/pages/MovieFormPage.jsx:140 | `trim()` leaves no white space at either end and never lengthens; what it is cut from is `TrimIsMiddle` |
| Text.TrimIsMiddle | src/pages/MovieFormPage.jsx:140 | the input is some white space, then the trimmed text, then some white space: `trim` removes white space at both ends and nothing else |
| Text.TrimAddsNothing | src/pages/MovieFormPage.jsx:140 | trimming adds no character |
| Text.TrimOfTrimmed | src/pages/MovieFormPage.jsx:140 | trimming a trimmed string changes nothing |
| Text.BlankIffAllSpace | src/components/ReviewItem.jsx:54 | `!s.trim()` holds iff every character is white space |
| Text.Split | src/pages/MovieFormPage.jsx:140 | `split(',')` yields at least one part, none holding the separator, and joining the parts gives the string back |
| Text.ToLower | src/pages/AdminDashboardPage.jsx:50-52 | `toLowerCase()` keeps the length and maps each character |
| Text.ToLowerIdempotent | src/pages/AdminDashboardPage.jsx:50-52 | lower-casing twice is lower-casing once |
| Text.ContainsIffOccurs | src/pages/AdminDashboardPage.jsx:50-52 | `includes` holds iff the text occurs at some position |
| Lists.Filter | src/pages/AdminDashboardPage.jsx:49 | `filter` keeps every accepted element as often as it occurs and no other, as an order-preserving subsequence |
| Lists.SubsequenceLength | src/pages/AdminDashboardPage.jsx:49 | a filtered list is never longer than its input |
| Lists.FilterIdempotent | src/pages/AdminDashboardPage.jsx:49 | filtering twice with the same test is filtering once |
| Lists.Unique | src/pages/HomePage.jsx:75 | `[...new Set(xs)]`: no duplicates, exactly the elements of xs, in order of first occurrence |
| Lists.UniqueOfUnique | src/pages/HomePage.jsx:75 | de-duplicating a list without duplicates changes nothing |

## Left out

- Network and transport: axios, and the forwarding services in `movieService.js`, `reviewService.js` and `userService.js`. Each server call is modelled by the value it settles to.
- JWT decoding: an oracle `string -> Option<int>` for the `exp` claim.
- JSON: `JSON.stringify` and `JSON.parse` of the user record are modelled as a datatype. Text that does not parse is kept as `Raw` text.
- Time: `Date.now()` is an integer number of milliseconds. The source's floating-point `Date.now() / 1000` is not modelled; for an integer `exp` the comparison is the same.
- Floating point: the average rating uses `real`, so float rounding is not modelled. `toFixed`, `toLocaleDateString`, `formatDate` and the half-star card display are left out.
- Browser APIs left out: `FileReader` (the preview it produces later), `setTimeout`, and `document.getElementById` (resetting the file input). `window.confirm` is a boolean input.
- `AuthContext` is not part of this model. Its `loading`, `user`, `isAuthenticated` and `isAdmin()` are inputs.
- MovieFormPage's `handleChange`, and the `parseInt` of `releaseYear` (the year is already an integer here).
- Text.ToLower: Latin capitals A-Z only. The full Unicode case mapping of `toLowerCase` is not modelled.
- Strings are sequences of characters, not UTF-16 code units. This affects the six-character password rule for characters outside the Basic Multilingual Plane.
- The route matcher compares literal segments without regard to case on A-Z only. Trailing slashes and route ranking are not modelled: the table is matched in declaration order.
- Text.Trim: its own contract states only that the result is trimmed and no longer than the input. That the input is white space, then the result, then white space is the lemma `Text.TrimIsMiddle`, kept out of the function's contract because every caller of `Trim` would then have to carry it.
- MovieFormPage.CleanParts: its own contract states only that the parts are non-empty, trimmed and no more numerous. Which parts survive, in what order and how often is `MovieFormPage.CleanPartsKeepsPieces`, for the same reason.
- MovieFormPage.ParseActors: its own contract states only that the names are non-empty, trimmed and free of commas. Which pieces of the text they are is `MovieFormPage.ParseActorsKeepsPieces`, for the same reason.
- HomePage.SortByRating: stability is not proved. Sortedness and the permutation are proved.
- HomePage.Featured: this model states nothing about which of two equally rated movies is kept at the cut.
- Render-only code: the page markup; `Footer`, `Navbar`, `MovieCard`, `MoviesPage` and `SearchPage`; `vite.config.js`.
- ProfilePage's `activeTab`.
- The `TypeError` message shown for a missing user in `ReviewForm` is the V8 engine's wording.
- An early return in ProfilePage's and AdminDashboard's effects leaves `loading` as it was. This is modelled as written, not corrected.
- The endpoint operations other than the ones the pages call are modelled only by their URL and headers.
