# album_online — a Dafny model of album delivery

album_online is a Next.js application through which a photographer delivers
photo albums to clients. The photographer creates an album under a code,
uploads its photos and customises its look. The client opens the album with
the code and a password and sees the preview photos until the album is paid,
then every photo. This project models the rules behind that flow and proves
properties of them:

- the album and client registries of the API routes: create, partial update,
  list, and the uniqueness of codes and of e-mails per photographer
  (`Store`, `AlbumsRoute`, `ClientsRoute`);
- the two server-side upload loops: the CDN route, which skips a failing
  file, and the local-disk route, which aborts on one (`CloudinaryUpload`,
  `LocalUpload`);
- the download route's content-type table (`DownloadRoute`);
- the two client-side upload components: the professional queue with its
  status machine, and the simple all-or-nothing uploader
  (`BrowserFiles`, `ProfessionalUpload`, `PhotoUpload`);
- the client's access page, the client's dashboard and the photographer's
  panel (`ClientPage`, `ClientDashboard`, `PhotographerPage`, `AlbumViews`);
- the album customisation record and its editor (`Customization`).

`Text` and `Seqs` hold the string and list operations that JavaScript
provides: `toUpperCase`, `toLowerCase`, `includes`, `split(...).pop()`,
`split(...)[1]`, `replace`, `filter`, `reduce`, and the ordering of a query.

Each handler that changes React state or a database table is a method of a
class whose fields are that state: `Store.Database`, `ProfessionalUpload.UploadQueue`,
`PhotoUpload.PhotoUploader`, `ClientPage.Session`, `ClientDashboard.Dashboard`,
`PhotographerPage.Panel` and `Customization.Editor`. Each such method is
proved against a function of the old state. The properties the source
promises are proved about those functions as lemmas, and as invariants the
methods keep. These invariants are:

- unique album codes, all upper case;
- unique album ids;
- unique (e-mail, photographer) pairs;
- unique queue ids;
- panel album ids equal to the list position plus one.

Several things come in as parameters rather than being computed:

- what the environment decides: the outcome of each CDN, disk or `fetch` call;
- fresh ids (uuid, database ids);
- clock readings.

Prices are integer cents.

## Model

| member | source | states |
|---|---|---|
| Text.ToUpper | src/app/api/albums/route.ts:111 | `toUpperCase` keeps the length, upper-cases each character and leaves no lower-case letter |
| Text.ToUpperIdempotent | src/app/api/albums/route.ts:89 | upper-casing an already upper-cased code changes nothing |
| Text.ToLower | src/app/client/dashboard/page.tsx:191 | `toLowerCase` keeps the length, lower-cases each character and leaves no upper-case letter |
| Text.AfterLastShape | src/app/api/download/route.ts:22 | `split('.').pop()` is a suffix of the string that holds no '.', and is either the whole string or preceded by a '.' |
| Text.AfterLastJoin | src/app/api/upload/route.ts:39 | the extension after the last '.' of `prefix.ext` is `ext`, whatever the prefix holds |
| Text.SecondField | src/components/professional-upload.tsx:46 | `type.split('/')[1]` holds no '/' and occurs in the type right after a '/' |
| Text.ReplaceFirstJoin | src/app/api/upload-cloudinary/route.ts:56 | `replace('.', '_')` swaps only the first '.' |
| AlbumViews.PaidPendingPartition | src/app/photographer/page.tsx:201-207 | every album is counted once, as paid or as pending: the two counts add up to the list length |
| AlbumViews.PaidCountDirect | src/app/client/dashboard/page.tsx:288 | the filtered paid count equals an independent count by recursion over the list |
| Store.FindByCode | src/app/api/albums/route.ts:14-26 | the lookup by code finds an album exactly when some album has that exact code, and what it finds has it |
| Store.IndexOfAlbumId | src/app/api/albums/route.ts:168-170 | the lookup by id finds a position exactly when some album has that id, and the album there has it |
| AlbumsRoute.WithPhotos | src/app/api/albums/route.ts:15-21 | the included photos are exactly the album's own photos, each as often as in the table, sorted by ascending order |
| AlbumsRoute.MatchingNewestFirst | src/app/api/albums/route.ts:31-57 | the list holds exactly the albums matching every given filter, each as often as stored, newest first |
| AlbumsRoute.ListAlbums | src/app/api/albums/route.ts:41-59 | the list branch returns the albums of MatchingNewestFirst, in that order, each with its own photos |
| AlbumsRoute.GetAlbums | src/app/api/albums/route.ts:12-29 | with a code, the reply is the album with exactly that code (not upper-cased) or 404; without one, the list branch |
| AlbumsRoute.LowerCaseCodeMisses | src/app/api/albums/route.ts:12-26 | codes are stored upper case and GET compares exactly, so a code with a lower-case letter always gets 404 |
| AlbumsRoute.CreateAlbumOutcome | src/app/api/albums/route.ts:77-124 | missing fields give 400; otherwise a taken upper-cased code gives 400 before an unknown client gives 404; success stores the upper-cased code and the defaults 5 and 29999 cents |
| AlbumsRoute.CreateAlbum | src/app/api/albums/route.ts:109-124 | POST appends exactly the decided row, changes nothing when refused, and keeps codes unique and upper case |
| AlbumsRoute.CaseInsensitiveDuplicate | src/app/api/albums/route.ts:87-96 | once an album is created, a second POST whose code differs only in letter case is refused as a duplicate |
| AlbumsRoute.ApplyUpdate | src/app/api/albums/route.ts:158-166 | each supplied field is replaced and each absent one kept; id, code, owners and creation time never change |
| AlbumsRoute.EmptyUpdateKeepsRow | src/app/api/albums/route.ts:158-166 | an update that supplies no field leaves the row as it was |
| AlbumsRoute.ApplyUpdateIdempotent | src/app/api/albums/route.ts:158-166 | applying the same update twice is the same as applying it once |
| AlbumsRoute.UpdateAlbum | src/app/api/albums/route.ts:152-186 | PUT gives 400 without an id and 500 for an unknown id; otherwise exactly that row is replaced and the invariant kept |
| ClientsRoute.ClientsNewestFirst | src/app/api/clients/route.ts:14-38 | the query returns exactly the photographer's clients, each as often as stored, newest first |
| ClientsRoute.ListClients | src/app/api/clients/route.ts:10-38 | GET gives 400 exactly when the photographer id is absent or empty; otherwise that photographer's clients, each as often as stored, newest first |
| ClientsRoute.FindClientFor | src/app/api/clients/route.ts:60-65 | the lookup finds a client exactly when one has both the e-mail and the photographer id |
| ClientsRoute.CreateClientOutcome | src/app/api/clients/route.ts:53-79 | missing fields give 400, a taken (e-mail, photographer) pair gives 400, and success stores the submitted fields verbatim |
| ClientsRoute.CreateClient | src/app/api/clients/route.ts:73-79 | POST appends exactly the decided row, changes nothing when refused, and keeps each pair unique |
| ClientsRoute.SameEmailOtherPhotographer | src/app/api/clients/route.ts:60-71 | an e-mail registered under one photographer can still be registered under another |
| ClientsRoute.RepeatedRegistrationRefused | src/app/api/clients/route.ts:60-71 | submitting the same registration twice makes the second attempt a duplicate |
| CloudinaryUpload.CdnExtensionShape | src/app/api/upload-cloudinary/route.ts:48 | the extension is never empty and holds no '.': the name's last segment, or `jpg` when that is empty |
| CloudinaryUpload.CdnExtensionEdgeCases | src/app/api/upload-cloudinary/route.ts:48 | a name ending in '.' gets `jpg`; a name without '.' is its own extension |
| CloudinaryUpload.PublicIdShape | src/app/api/upload-cloudinary/route.ts:47-56 | for a uuid the public id is `<uuid>_<ext>` |
| CloudinaryUpload.RequestsPerFile | src/app/api/upload-cloudinary/route.ts:53-57 | one CDN upload per file, in input order, under `albums/<code>` with that file's public id |
| CloudinaryUpload.IngestedRows | src/app/api/upload-cloudinary/route.ts:63-77 | every stored row comes from a successful file, has order = position + 1 and is a preview exactly when position < previewCount; there are at most as many rows as files |
| CloudinaryUpload.IngestedOrdered | src/app/api/upload-cloudinary/route.ts:39-97 | stored rows keep the input order: their orders strictly increase |
| CloudinaryUpload.IngestedComplete | src/app/api/upload-cloudinary/route.ts:39-97 | every file whose upload succeeded has its row |
| CloudinaryUpload.IngestFiles | src/app/api/upload-cloudinary/route.ts:34-98 | the loop's rows, CDN requests and total size are those of the specification, and the total includes failed files |
| CloudinaryUpload.AllSucceeded | src/app/api/upload-cloudinary/route.ts:74 | when every upload succeeds, row i has order i + 1 |
| CloudinaryUpload.PreviewOfFirstTwo | src/app/api/upload-cloudinary/route.ts:75 | with previewCount 2 and three successes, exactly the first two rows are previews |
| CloudinaryUpload.FailedFileLeavesGap | src/app/api/upload-cloudinary/route.ts:94-97 | a failed file's order never appears among the stored rows |
| CloudinaryUpload.UploadToCdn | src/app/api/upload-cloudinary/route.ts:17-108 | 400 for no files, then 400 without an album id, then 404 for an unknown album, all before any upload; otherwise a success whatever the uploads return, with the rows added to the photo table |
| LocalUpload.LocalUrlKeepsExtension | src/app/api/upload/route.ts:39-57 | the stored file's URL keeps the uploaded file's extension |
| LocalUpload.LocalUrlWithoutDot | src/app/api/upload/route.ts:39-40 | a name without '.' is used whole as the extension; there is no default |
| LocalUpload.EntriesPerFile | src/app/api/upload/route.ts:59-66 | entry i belongs to file i: its name and originalName are the file's name, its size the file's size, its URL under the album's folder |
| LocalUpload.SaveLocally | src/app/api/upload/route.ts:18-81 | 400 for no files, then 400 without an album id; success exactly when every write succeeds, with one entry per file and the sum of sizes; otherwise 500 |
| DownloadRoute.ContentType | src/app/api/download/route.ts:40-52 | a listed extension gives its `image/` type, any other the generic binary type |
| DownloadRoute.ContentTypeTable | src/app/api/download/route.ts:41-51 | jpg and jpeg give image/jpeg, png, gif, webp, bmp and tiff their own types, and tif, cr2 and the empty extension give application/octet-stream |
| DownloadRoute.TypeOfJoinedPath | src/app/api/download/route.ts:22-23 | only the lower-cased segment after the last '.' decides the type |
| DownloadRoute.PathExtensionExamples | src/app/api/download/route.ts:22 | `foto.JPG` gives `jpg`, `casamento.2024.tif` gives `tif`, a dot-free path is its own extension |
| DownloadRoute.Disposition | src/app/api/download/route.ts:29 | `attachment; filename="<name>"`, with `photo` when no name is given |
| DownloadRoute.DownloadPhoto | src/app/api/download/route.ts:11-37 | 400 exactly without a path, 404 exactly when the read fails, and otherwise the bytes with the table's type and the fixed headers |
| ProfessionalUpload.SubtypeOfValidType | src/components/professional-upload.tsx:37-46 | the text after '/' of each accepted type is its subtype |
| ProfessionalUpload.AcceptsBySubtype | src/components/professional-upload.tsx:45-47 | a file is accepted exactly when its MIME type is listed or its lower-cased name contains a listed subtype |
| ProfessionalUpload.ListedMimeAccepted | src/components/professional-upload.tsx:45-47 | every listed MIME type is accepted whatever the file is called |
| ProfessionalUpload.ListedTypeAdmits | src/components/professional-upload.tsx:45-47 | one listed type admitting the file is enough |
| ProfessionalUpload.DrawingAccepted | src/components/professional-upload.tsx:46 | the name test is a substring test: `draw.txt` of type text/plain is accepted because it contains `raw` |
| ProfessionalUpload.RawExtensionAloneRefused | src/components/professional-upload.tsx:41-46 | a RAW file named `A.NEF` (in any casing) that the browser reports without a type is refused |
| ProfessionalUpload.SizeIgnored | src/components/professional-upload.tsx:75-83 | a file's size never decides whether it is accepted |
| ProfessionalUpload.SelectionPartition | src/components/professional-upload.tsx:45-57 | accepted and rejected files split the selection, as a multiset too |
| ProfessionalUpload.NewEntries | src/components/professional-upload.tsx:62-70 | each accepted file becomes a pending entry at progress 0 with an empty URL, numbered by its position |
| ProfessionalUpload.SetProgress | src/components/professional-upload.tsx:103-107 | exactly the entries with the id get the new progress and status; every other entry is unchanged |
| ProfessionalUpload.Without | src/components/professional-upload.tsx:194-202 | removal keeps exactly the entries with another id |
| ProfessionalUpload.FilterKeepsUniqueIds | src/components/professional-upload.tsx:200 | filtering the queue keeps its ids unique |
| ProfessionalUpload.PendingSplit | src/components/professional-upload.tsx:99-100 | the large and the small pending files together are the pending ones, as a multiset |
| ProfessionalUpload.PendingMembership | src/components/professional-upload.tsx:93-100 | with unique ids, an entry is in the batch exactly when it is pending and at most 100 MB, and among the singles exactly when pending and larger |
| ProfessionalUpload.NothingPending | src/components/professional-upload.tsx:87 | with nothing pending there is nothing to send in either list |
| ProfessionalUpload.SettledForward | src/components/professional-upload.tsx:103-165 | an upload never changes an entry's id, name or file and leaves non-pending entries alone; a pending entry ends at (100, completed), (50, uploading) only in a failed batch, (0, error) only as a failed large file, or stays pending only when the batch threw |
| ProfessionalUpload.UploadQueue.constructor | src/components/professional-upload.tsx:26 | the queue starts empty |
| ProfessionalUpload.UploadQueue.HandleFileSelect | src/components/professional-upload.tsx:31-84 | the accepted files are appended in order as new entries, ids stay unique, and the report counts the rejected files, the accepted ones over 50 MB and their bytes |
| ProfessionalUpload.UploadQueue.RemovePhoto | src/components/professional-upload.tsx:194-202 | exactly the entries with the id leave the queue, in order, and ids stay unique |
| ProfessionalUpload.UploadQueue.MarkAll | src/components/professional-upload.tsx:114-119 | every entry whose id is in the list gets the progress and status; no other entry changes |
| ProfessionalUpload.UploadQueue.SendLarge | src/components/professional-upload.tsx:137-169 | each large file ends at (100, completed) or (0, error) by its own outcome, and the successes are counted |
| ProfessionalUpload.UploadQueue.SendSmall | src/components/professional-upload.tsx:110-134 | the batch moves to (50, uploading) and, on success, to (100, completed); it reports whether the request threw |
| ProfessionalUpload.UploadQueue.UploadPhotos | src/components/professional-upload.tsx:86-192 | every entry ends as SettledForward describes, ids stay unique, and without a throw the completed count is the successful batch plus the large successes |
| ProfessionalUpload.UploadQueue.UploadPending | src/components/professional-upload.tsx:93-169 | the part after the pending check: same end state and count as UploadPhotos |
| ProfessionalUpload.SmallPhaseFrom | src/components/professional-upload.tsx:110-134 | the batch holds exactly the small pending entries, so after it each entry is where the batch puts it |
| ProfessionalUpload.LargePhaseSettles | src/components/professional-upload.tsx:137-169 | after the large files are sent, every entry has its settled state |
| PhotoUpload.Staged | src/components/photo-upload.tsx:60-66 | one staged entry per file, in order, with the file, its name, an empty URL and a positional id |
| PhotoUpload.AllOrNothing | src/components/photo-upload.tsx:35-68 | a non-empty selection stages every file exactly when all five-type checks pass, and otherwise leaves the list unchanged |
| PhotoUpload.LargeFilesStaged | src/components/photo-upload.tsx:49-68 | a file over 100 MB with a valid type is still staged, after the existing entries |
| PhotoUpload.WithoutStaged | src/components/photo-upload.tsx:108-116 | removal keeps exactly the entries with another id |
| PhotoUpload.FilesOf | src/components/photo-upload.tsx:134-138 | the request carries every staged file, in order |
| PhotoUpload.PhotoUploader.constructor | src/components/photo-upload.tsx:23 | the list starts empty |
| PhotoUpload.PhotoUploader.ProcessFiles | src/components/photo-upload.tsx:29-69 | an empty selection does nothing, one bad type refuses all, otherwise all are staged and the large ones counted |
| PhotoUpload.PhotoUploader.RemovePhoto | src/components/photo-upload.tsx:108-116 | exactly the entries with the id leave the list |
| PhotoUpload.PhotoUploader.UploadPhotos | src/components/photo-upload.tsx:118-173 | an empty list sends nothing; otherwise every staged file is sent and the list is cleared exactly on success |
| ClientPage.Login | src/app/client/page.tsx:57-65 | login succeeds exactly when the upper-cased code names an album whose password equals the input, and the session carries that code and the total and preview counts |
| ClientPage.LoginIgnoresCodeCase | src/app/client/page.tsx:57 | codes that upper-case alike open the same album |
| ClientPage.Visible | src/app/client/page.tsx:233 | a paid album shows every photo, an unpaid one exactly its preview photos |
| ClientPage.VisibleCountMatches | src/app/client/page.tsx:60-65 | the gallery's size is totalPhotos for a paid album and previewPhotos for an unpaid one |
| ClientPage.PaymentUnlocksAll | src/app/client/page.tsx:88 | payment changes only the paid flag, after which every photo is visible and download is offered |
| ClientPage.DemoPreviews | src/app/client/page.tsx:20-26 | of the five demonstration photos, the first three are the previews |
| ClientPage.DemoWeddingLogin | src/app/client/page.tsx:14-27 | `demo2024` with its password opens the paid album as `DEMO2024`, with 5 photos and 3 previews |
| ClientPage.DemoFamilyLogin | src/app/client/page.tsx:28-41 | `family2024` opens the unpaid album showing 3 photos, and a password differing in case is refused |
| ClientPage.Session.constructor | src/app/client/page.tsx:44-46 | empty fields and no album open |
| ClientPage.Session.HandleLogin | src/app/client/page.tsx:50-79 | a match opens the album Login gives; a miss leaves the page unchanged |
| ClientPage.Session.HandlePayment | src/app/client/page.tsx:81-94 | the open album becomes paid and nothing else changes |
| ClientPage.Session.Logout | src/app/client/page.tsx:107-111 | no album is open and both fields are cleared |
| ClientDashboard.ClientQuery | src/app/client/dashboard/page.tsx:184 | the name is the `client` parameter when it is non-empty, and never empty |
| ClientDashboard.ShownAlbumsMatch | src/app/client/dashboard/page.tsx:190-192 | an album is listed exactly when it is in the table and its lower-cased client name contains the lower-cased query |
| ClientDashboard.EmptyQueryShowsAll | src/app/client/dashboard/page.tsx:190-192 | an empty query lists the whole table |
| ClientDashboard.MarkPaid | src/app/client/dashboard/page.tsx:206-208 | the albums with the id become paid; every other album is unchanged |
| ClientDashboard.MarkPaidPending | src/app/client/dashboard/page.tsx:206-208 | after a payment the pending albums are exactly those pending under another id, in order |
| ClientDashboard.MarkPaidKeepsPhotos | src/app/client/dashboard/page.tsx:312 | paying never changes the total-photos counter |
| ClientDashboard.MarkPaidIdempotent | src/app/client/dashboard/page.tsx:206-208 | paying twice for an album is the same as paying once |
| ClientDashboard.StatsOf | src/app/client/dashboard/page.tsx:276-312 | paid plus pending equals the album count, photos is the sum of totalPhotos, and it is non-negative when every count is |
| ClientDashboard.ActionFor | src/app/client/dashboard/page.tsx:373-387 | pay exactly for an unpaid album, download exactly for a paid one |
| ClientDashboard.PaymentOffersDownload | src/app/client/dashboard/page.tsx:198-214 | once paid for, the album offers download |
| ClientDashboard.JoaoDashboard | src/app/client/dashboard/page.tsx:14-76 | the query `João` lists the table's first three albums, in order |
| ClientDashboard.JoaoStats | src/app/client/dashboard/page.tsx:276-312 | João sees 3 albums, 2 paid, 1 pending, 290 photos |
| ClientDashboard.Dashboard.constructor | src/app/client/dashboard/page.tsx:175-177 | the page starts loading, with no albums, over the demonstration table |
| ClientDashboard.Dashboard.Load | src/app/client/dashboard/page.tsx:181-196 | the greeted name is the query and the listed albums are the matching rows; loading ends |
| ClientDashboard.Dashboard.HandlePayment | src/app/client/dashboard/page.tsx:198-214 | the listed albums become MarkPaid of the old ones; the name and loading flag are unchanged |
| PhotographerPage.MockAlbumsValid | src/app/photographer/page.tsx:23-63 | the starting albums have ids 1, 2, 3 in order and distinct codes |
| PhotographerPage.RevenueIsEarned | src/app/photographer/page.tsx:197-199 | revenue equals the sum of what each album has earned, so unpaid albums add nothing |
| PhotographerPage.MockCounters | src/app/photographer/page.tsx:197-207 | the starting list has 2 paid, 1 pending and 69998 cents of revenue |
| PhotographerPage.CreateAlbum | src/app/photographer/page.tsx:114-142 | refused exactly for an empty required field, then exactly for a taken upper-cased code; otherwise the album has id length + 1, the upper-cased code, 0 photos, unpaid, and the form's values |
| PhotographerPage.CreateKeepsValid | src/app/photographer/page.tsx:123-144 | appending the created album keeps ids in order and codes distinct |
| PhotographerPage.CreateKeepsRevenue | src/app/photographer/page.tsx:197-207 | a new album leaves revenue unchanged and adds one pending album |
| PhotographerPage.AddPhotos | src/app/photographer/page.tsx:157-163 | each album gets the photos appended and counted exactly when its code matches |
| PhotographerPage.AddPhotosOnlyTarget | src/app/photographer/page.tsx:157-163 | with distinct codes, only the album under the code changes |
| PhotographerPage.AddPhotosValid | src/app/photographer/page.tsx:157-163 | uploading keeps ids in order and codes distinct |
| PhotographerPage.AddPhotosTotals | src/app/photographer/page.tsx:157-163 | the photo total grows by exactly the number of photos, and revenue is unchanged |
| PhotographerPage.AddPhotosUnknownCode | src/app/photographer/page.tsx:157-163 | photos for a code no album carries change nothing |
| PhotographerPage.SetCustomization | src/app/photographer/page.tsx:217-223 | the album with the id gets the settings; every other album is unchanged |
| PhotographerPage.SetCustomizationOnlyTarget | src/app/photographer/page.tsx:217-223 | since ids are positions plus one, exactly the album at position id − 1 changes, and none when the id is out of range |
| PhotographerPage.SetCustomizationValid | src/app/photographer/page.tsx:217-223 | saving a customisation keeps the invariant |
| PhotographerPage.SetCustomizationRevenue | src/app/photographer/page.tsx:217-223 | saving a customisation leaves revenue unchanged |
| PhotographerPage.Panel.constructor | src/app/photographer/page.tsx:66-84 | logged out, the demonstration albums, the empty form at step 1, no marker |
| PhotographerPage.Panel.EnterCredentials | src/app/photographer/page.tsx:66-67 | the inputs take the typed values; nothing else changes |
| PhotographerPage.Panel.HandleLogin | src/app/photographer/page.tsx:87-109 | the panel opens exactly for the fixed e-mail and password; a miss changes nothing |
| PhotographerPage.Panel.Logout | src/app/photographer/page.tsx:191-195 | the panel closes and both inputs are cleared; every other cell stays |
| PhotographerPage.Panel.FillForm | src/app/photographer/page.tsx:76-84 | the form takes the typed values; nothing else changes |
| PhotographerPage.Panel.HandleCreateAlbum | src/app/photographer/page.tsx:111-152 | a created album is appended, the marker set and the step moved to 2; a refusal changes nothing; the invariant holds |
| PhotographerPage.Panel.HandlePhotosUploaded | src/app/photographer/page.tsx:154-169 | without a marker nothing happens; otherwise the album under the form's upper-cased code gains the photos; the invariant holds |
| PhotographerPage.Panel.FinishAlbumCreation | src/app/photographer/page.tsx:171-189 | the form returns to its defaults (5 previews, 29999 cents), closed, at step 1, with no marker; the albums, login and editor cells stay |
| PhotographerPage.Panel.HandleCustomizeAlbum | src/app/photographer/page.tsx:209-212 | the album is selected and the editor opens; every other cell stays |
| PhotographerPage.Panel.HandleSaveCustomization | src/app/photographer/page.tsx:214-227 | without a selection nothing happens; otherwise the selected album takes the settings and the editor closes; the invariant holds |
| PhotographerPage.Panel.OpenCreateForm | src/app/photographer/page.tsx:244 | the creation form opens with its inputs, step and marker as they were; every other cell stays |
| PhotographerPage.Panel.CancelCreateForm | src/app/photographer/page.tsx:467 | the creation form closes but keeps its inputs, step and marker; every other cell stays |
| PhotographerPage.Panel.BackToInfo | src/app/photographer/page.tsx:505 | back to step 1, with the marker and the created album kept; every other cell stays |
| PhotographerPage.Panel.CloseEditor | src/app/photographer/page.tsx:271-274 | the editor closes and the selection is dropped without saving; the albums and every other cell stay |
| Customization.LayoutNamesRoundTrip | src/components/album-customization-editor.tsx:446-448 | the layout names and the three layouts correspond one to one |
| Customization.SetThemeFieldOnly | src/components/album-customization-editor.tsx:53-61 | the theme field that was set reads the new value and every other theme field reads as before |
| Customization.SetThemeFieldSame | src/components/album-customization-editor.tsx:53-61 | setting a theme field to its current value changes nothing |
| Customization.SetBannerFieldOnly | src/components/album-customization-editor.tsx:63-71 | the banner field that was set reads the new value and every other banner field reads as before |
| Customization.ApplyMusicOnly | src/components/album-customization-editor.tsx:73-81 | a music change sets its own field and keeps the other three |
| Customization.PresetsDistinct | src/components/album-customization-editor.tsx:91-128 | the four presets have distinct names and none of them is the default theme |
| Customization.EditTouchesOneSection | src/components/album-customization-editor.tsx:53-81 | every edit leaves every section but its own unchanged |
| Customization.PresetForgetsTheme | src/components/album-customization-editor.tsx:195 | a preset replaces the whole theme, so the previous theme does not matter |
| Customization.EditsCommute | src/components/album-customization-editor.tsx:53-81 | edits to different sections can be made in either order |
| Customization.Editor.constructor | src/components/album-customization-editor.tsx:46-49 | the editor starts from the album's customisation, or the default |
| Customization.Editor.HandleThemeChange | src/components/album-customization-editor.tsx:53-61 | the record becomes the old one with one theme field replaced |
| Customization.Editor.HandleBannerChange | src/components/album-customization-editor.tsx:63-71 | the record becomes the old one with one banner field replaced |
| Customization.Editor.HandleMusicChange | src/components/album-customization-editor.tsx:73-81 | the record becomes the old one with one music field replaced |
| Customization.Editor.ChoosePreset | src/components/album-customization-editor.tsx:195 | the record becomes the old one with the preset's theme |
| Customization.Editor.SetQuote | src/components/album-customization-editor.tsx:408 | the record becomes the old one with the quote replaced |
| Customization.Editor.SetWatermark | src/components/album-customization-editor.tsx:417 | the record becomes the old one with the watermark switch replaced |
| Customization.Editor.SetLayout | src/components/album-customization-editor.tsx:437-439 | the record becomes the old one with the layout replaced |
| Customization.Editor.HandleSave | src/components/album-customization-editor.tsx:83-84 | the record handed to `onSave` is the current one, unchanged |

## Left out

- File system, CDN, `fetch`, uuid and clock calls are not executed. Their outcomes come in as parameters: `Slot`, `Attempt`, `UploadOutcome`, the read bytes, fresh ids, `stamp`, `today` and `clock`.
- Timers, loading flags other than the dashboard's, toasts, object URLs and their `revokeObjectURL`, drag-and-drop state and all rendering are not modelled. They carry no rule.
- Floating point is not modelled:
  - prices are integer cents, so 299.99 becomes 29999;
  - `parseInt` and `parseFloat` of request fields are taken as already converted;
  - music volume is a `real` that is only stored;
  - progress values are the integers the handlers set;
  - `totalProgress` and the MB formatting of messages are left out.
- Letter casing is ASCII only. JavaScript's Unicode `toUpperCase` and `toLowerCase` also map accented letters; the model leaves them unchanged.
- Database calls, `request.formData()`, `request.json()` and `file.arrayBuffer()` are taken to succeed. In the source, a throw from any of them reaches the route's outer `catch` and answers 500; only the 500 of PUT for an unknown id is modelled. So `CloudinaryUpload.UploadToCdn`'s success on a valid request holds only when those calls succeed.
- Prisma's `include: { client }`, the `_count` selections and the message texts of replies are not modelled. Only the rows and the photo lists are.
- The database tables are ordered `seq`s rather than maps, because GET orders rows. Uniqueness of codes, album ids and (e-mail, photographer) pairs is a class invariant, not a key.
- In the CDN route, the new rows are appended to the photo table after the loop rather than one insert at a time. No one observes the table in between.
- Uploaded-at timestamps of the local upload reply are not modelled.
- `ProfessionalUpload.UploadQueue.HandleFileSelect` requires a clock reading different from those of earlier selections (`FreshStamp`). The source relies on `Date.now()` changing between selections, and uniqueness of ids depends on it.
- `ProfessionalUpload.NewEntries` gives every entry of one selection the same clock reading. The source calls `Date.now()` once per file inside the `map`, so readings may differ within a selection; ids stay distinct either way, through the position suffix.
- `ProfessionalUpload.UploadQueue.UploadPhotos` does not model `onPhotosUploaded(completedPhotos)`. That call reads the queue as it was before the upload, because of a stale React closure. It therefore never reports the files of the current upload, and React's asynchronous state is modelled as immediate.
- `DownloadRoute.ContentType` treats every unlisted extension as unlisted. In the source, an extension naming an inherited property of a plain object (`constructor`, `toString`) finds that property in the table instead.
- `ClientPage.Session.HandlePayment` requires an open album. Its button is only rendered while one is open.
- `PhotographerPage.Panel` keeps the marker `album-${Date.now()}` as the clock reading alone (`Option<int>`). Only whether it is set matters to the handlers.
- `ClientDashboard` leaves out the customisation objects of the dashboard's demonstration rows. The dashboard only lists, counts and pays for albums.
- `ClientDashboard.Dashboard` holds the demonstration table in a `const` field, so `Load` filters that field.
- The photo gallery, client management and album viewer components are not part of this model. They are fetch and DOM wrappers.

