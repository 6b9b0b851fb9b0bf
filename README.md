# pxprs in Dafny

A model of `pxprs`, a command-line tool that asks pixiv's search API for the
popular artworks of a tag and prints them. The model covers the program's own
logic in `src/main.rs`:

- the request URL built from the search term;
- the artwork and user URLs built from a post;
- how the parsed response is classified: transport or JSON failure, an error
  reported by the API, a `body.popular` of the wrong shape, an empty list, or
  posts to show;
- how the `--recent`, `--permanent` and `--simple` flags choose which lists are
  printed, in which order and in which form;
- the lines printed for each post, verbose or simple.

Modules, one per component:

- `Posts` (`posts.dfy`): the `Post` record and its two canonical URLs.
- `Console` (`console.dfy`): standard output as a class `Stdout` with the
  finished lines and the unfinished one. `print!` and `println!` are its
  methods.
- `Render` (`render.dfy`): `impl Display for Post` as the method
  `DisplayPost`, proved against `VerboseBlock` and `PostUrl`; one iteration
  of `print_posts` as `PrintPost`, proved against `PostLines`; and
  `print_posts` itself as the method `PrintPosts` with its loop, proved
  against `PostsLines`.
- `Seqs` (`seqs.dfy`): two general facts about sequence concatenation that
  the proofs use.
- `Request` (`request.dfy`): the request URL, plus an independent reader
  `TermOf` that takes the term back out of a URL.
- `Pxprs` (`pxprs.dfy`): the arguments, the abstract response, the
  classification, the list selection and the whole run of `main`. `Execute`
  is the imperative `main`. `Expected` is its specification: the printed lines
  and how the process ends. The lemmas state the program's promises about
  `Expected`.

Points of the code's behaviour worth knowing:

- The "probably not a valid Pixiv Tag" notice is printed when either list is
  empty, not only when both are (`||` at `src/main.rs:87`).
- When both `--recent` and `--permanent` are given, only the permanent list is
  shown. The two flags together do not mean "show both".
- The search term is put into the request URL verbatim, with no escaping.
- A verbose post is followed by two empty lines, not one. `Display::fmt`
  prints its three lines itself and writes nothing to the formatter, so
  `println!("{:#}\n", post)` then adds the format string's `\n` and its own
  newline.
- Simple mode also leaves out the "Sending request" line and the "Took:" line.

## Model

| member | source | states |
|---|---|---|
| `Posts.PostUrl` | src/main.rs:32-34 | the artwork URL is the artwork prefix followed by the post id, verbatim |
| `Posts.UserUrl` | src/main.rs:36-38 | the user URL is the user prefix followed by the user id, verbatim |
| `Posts.PostUrlDependsOnlyOnId` | src/main.rs:32-34 | two posts have the same artwork URL if and only if they have the same id |
| `Posts.UserUrlDependsOnlyOnUserId` | src/main.rs:36-38 | two posts have the same user URL if and only if they have the same user id |
| `Request.RequestUrl` | src/main.rs:67-70 | the request URL is the search endpoint, the term, `?word=`, the term again and `&lang=en`, each at its position |
| `Request.TermOfRequestUrl` | src/main.rs:67-70 | the term can be read back from the request URL for every term: it is inserted verbatim |
| `Request.RequestUrlOfTermOf` | src/main.rs:67-70 | every string from which a term can be read is exactly that term's request URL |
| `Request.RequestUrlInjective` | src/main.rs:67-70 | two terms give the same request URL if and only if they are equal |
| `Render.DisplayPost` | src/main.rs:47-61 | the alternate form appends the three verbose lines and leaves no partial line; the plain form appends no line and leaves the artwork URL as the partial line |
| `Render.PrintPost` | src/main.rs:126-130 | one iteration appends that post's lines, the verbose block and two empty lines or the bare URL, and leaves no partial line |
| `Render.PrintPosts` | src/main.rs:124-131 | after the loop, standard output holds the old lines followed by the lines of every post in list order, and no partial line |
| `Render.PostsLinesAppend` | src/main.rs:124-131 | rendering two lists one after the other gives the concatenation of their renderings |
| `Render.PostsLinesSimple` | src/main.rs:129 | in simple mode a list gives exactly one line per post, that post's artwork URL, in list order |
| `Render.PostsLinesSnoc` | src/main.rs:124-131 | rendering one more post appends exactly that post's lines |
| `Render.PostsLinesVerboseLength` | src/main.rs:126-127 | in verbose mode a list gives five lines per post |
| `Render.PostsLinesVerboseAt` | src/main.rs:126-127 | in verbose mode line k of the i-th five-line block is line k of the i-th post's lines |
| `Render.PostsLinesVerbose` | src/main.rs:126-127 | in verbose mode a list gives exactly five lines per post, in list order: `Post: ` and the artwork URL, the title line, the posted-by line with the author's name and user URL, and two empty lines |
| `Pxprs.Classify` | src/main.rs:75-93 | transport failure, non-JSON body and wrong shape abort, and only the wrong shape panics; an `error` of true is reported; an empty recent or permanent list gives the empty-list outcome; posts are shown exactly when both lists are non-empty |
| `Pxprs.Sections` | src/main.rs:95-118 | one or two lists are printed; the permanent list exactly when `--permanent` is given or `--recent` is not; the recent list exactly when `--permanent` is not given; when both are printed, the permanent one comes first |
| `Pxprs.EmptyNotice` | src/main.rs:88-91 | the empty-list notice holds the search term verbatim at a fixed position |
| `Pxprs.Execute` | src/main.rs:64-121 | the lines `main` prints and the way it ends are exactly those of `Expected`, for every argument set and response |
| `Pxprs.PrintSimple` | src/main.rs:95-105 | in simple mode the selected lists are appended as their posts' lines, with no headers |
| `Pxprs.PrintVerbose` | src/main.rs:107-118 | in verbose mode each selected list is appended after two empty lines and its header |
| `Pxprs.PrintSection` | src/main.rs:108-109 | one verbose section is two empty lines, the header, then the list's posts |
| `Pxprs.SelectionByFlags` | src/main.rs:95-103 | the rendered posts are the permanent list under `--permanent`, else the recent list under `--recent`, else all permanent posts followed by all recent ones; each list keeps its order and no post is dropped or repeated |
| `Pxprs.SelectedLinesByFlags` | src/main.rs:107-118 | for each flag combination, the printed sections are the permanent one, the recent one, or the permanent one followed by the recent one |
| `Pxprs.SimpleSectionLines` | src/main.rs:97-102 | in simple mode a section is its list's simple rendering and nothing more |
| `Pxprs.SelectedLinesSimple` | src/main.rs:95-103 | in simple mode the printed sections are exactly the simple rendering of the selected posts |
| `Pxprs.PermanentFlagWins` | src/main.rs:95-112 | once `--permanent` is given, `--recent` changes nothing in the output or the exit |
| `Pxprs.ApiErrorReported` | src/main.rs:78-82 | when the API reports an error, the run prints the notice and the payload after the usual first line, renders no post and succeeds; the output does not depend on the term or the list flags |
| `Pxprs.RequestOrJsonFailureFails` | src/main.rs:75-77 | a failed request or a body that is not JSON ends the run with an error returned through `?`, and nothing is printed but the usual first line |
| `Pxprs.ShapeMismatchPanics` | src/main.rs:84-85 | a response without a well-formed `body.popular` panics, and nothing is printed but the usual first line |
| `Pxprs.EmptyListNotice` | src/main.rs:87-93 | when either list is empty, the run prints an empty line and the notice naming the term, renders no post and succeeds |
| `Pxprs.SimpleModeOutput` | src/main.rs:95-105 | in simple mode a successful run prints exactly one line per selected post, its artwork URL, and nothing else: no first line, no header, no time |
| `Pxprs.VerboseModeOutput` | src/main.rs:107-121 | in verbose mode a successful run prints the first line, then the section of each selected list (two empty lines, its header, its posts), then the time taken; in all, 2 + 3 per list + 5 per post lines |
| `Pxprs.LengthOfSectionLines` | src/main.rs:107-118 | a verbose section is three lines plus five per post |

## Left out

- Argument parsing with `clap` (line 65) is not modelled. The arguments arrive as the `Args` record, so the usage error for a missing term is not modelled.
- The HTTP GET and the reading of the body (line 75) are network I/O. A failure of either is the single `TransportFailure` response.
- JSON parsing with `serde_json` (lines 77 and 84) is not modelled, and neither is the camelCase renaming of the post fields (line 23). The model takes the parsed result as the abstract `Response`: `NotJson`, `ApiError` when the top-level `error` is boolean true, `Malformed`, or `Popular`.
- The pretty-printed JSON payload on an API error (line 80) is one opaque `dump` line.
- The wall-clock measurement with `Instant` and its `{:.2?}` formatting (lines 66 and 120) are not modelled. The formatted duration is the parameter `elapsed`.
- What goes to standard error is not modelled. That covers the `Error: …` line printed when `main` returns an error and the panic message of `expect`. The numeric exit codes are also left out. The model keeps only `Success`, `ErrReturned` or `Panicked`.
- Stdout buffering and locking are not modelled. The model keeps only the resulting sequence of lines.
- Console.Stdout.PrintLine: a term, title, name or id that contains a newline stays inside one model line, while a terminal would show it across two.
- The parsing of the URL string by `reqwest` is not modelled: neither its percent-encoding nor the way some characters of the term change the request that goes out. A `#` in the term starts a fragment that is never sent, and `?`, `&` and `/` add query parameters or path segments. The model stops at the string that `format!` builds, so `Request.RequestUrlInjective` holds for that string but not for the request sent: the terms `x#1` and `x#2` send the same GET.
