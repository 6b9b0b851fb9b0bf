/** The program's own logic: from the command-line arguments and the parsed
    API response to what appears on standard output and how the process ends. */
module Pxprs {
  import opened Posts
  import opened Console
  import opened Render
  import opened Request
  import opened Seqs

  /** The command line: the search term and the three flags. */
  datatype Args = Args(term: string, recent: bool, permanent: bool, simple: bool)

  /** What the HTTP request, body decoding and JSON parsing hand to the
      program's own logic. */
  datatype Response =
    | TransportFailure                                  // the GET or reading its body failed
    | NotJson                                           // the body is not JSON
    | ApiError(dump: string)                            // top-level `error` is boolean true; dump is the pretty-printed payload
    | Malformed                                         // `body.popular` is missing or is not two post lists
    | Popular(recent: seq<Post>, permanent: seq<Post>)  // `body.popular` as two post lists

  /** How the process ends: `main` returns Ok, `main` returns an Err through
      `?`, or `expect` panics. */
  datatype Exit = Success | ErrReturned | Panicked

  /** The branch of `main` a response leads to. */
  datatype Outcome =
    | Abort(status: Exit)
    | Reported(dump: string)
    | NoResults
    | Show(recent: seq<Post>, permanent: seq<Post>)

  /** Classifies a response in the order `main` inspects it: transport and
      JSON failures, the API's own error flag, the shape of `body.popular`,
      and an empty list. */
  function Classify(r: Response): (o: Outcome)
    ensures o.Abort? <==> r.TransportFailure? || r.NotJson? || r.Malformed?
    ensures o.Abort? ==> o.status != Success && (o.status == Panicked <==> r.Malformed?)
    ensures o.Reported? <==> r.ApiError?
    ensures o.Reported? ==> o.dump == r.dump
    ensures o.NoResults? <==> r.Popular? && (r.recent == [] || r.permanent == [])
    ensures o.Show? <==> r.Popular? && r.recent != [] && r.permanent != []
    ensures o.Show? ==> o.recent == r.recent && o.permanent == r.permanent
  {
    match r
    case TransportFailure => Abort(ErrReturned)
    case NotJson => Abort(ErrReturned)
    case ApiError(dump) => Reported(dump)
    case Malformed => Abort(Panicked)
    case Popular(recent, permanent) =>
      if |permanent| == 0 || |recent| == 0 then NoResults else Show(recent, permanent)
  }

  /** One of the two lists of popular posts. */
  datatype Section = Permanent | Recent

  function Header(s: Section): string
  {
    match s
    case Permanent => "Showing permanently popular posts: "
    case Recent => "Showing recently popular posts: "
  }

  function ListOf(s: Section, recent: seq<Post>, permanent: seq<Post>): seq<Post>
  {
    match s
    case Permanent => permanent
    case Recent => recent
  }

  /** The lists the flags select, in the order they are printed: the
      permanent flag wins over the recent one, and with neither flag both
      lists are shown, permanent first. */
  function Sections(a: Args): (ss: seq<Section>)
    ensures 1 <= |ss| <= 2
    ensures Permanent in ss <==> a.permanent || !a.recent
    ensures Recent in ss <==> !a.permanent
    ensures |ss| == 2 ==> ss == [Permanent, Recent]
  {
    if a.permanent then [Permanent]
    else if a.recent then [Recent]
    else [Permanent, Recent]
  }

  /** The posts that are rendered, in order: those of the first selected
      list, then those of the second if there is one. */
  function SelectedPosts(a: Args, recent: seq<Post>, permanent: seq<Post>): seq<Post>
  {
    var ss := Sections(a);
    ListOf(ss[0], recent, permanent) + (if |ss| == 2 then ListOf(ss[1], recent, permanent) else [])
  }

  /** The lines printed for one selected list: in verbose mode two empty
      lines and its header first, then its posts. */
  function SectionLines(s: Section, recent: seq<Post>, permanent: seq<Post>, simple: bool): seq<string>
  {
    (if simple then [] else ["", "", Header(s)]) + PostsLines(ListOf(s, recent, permanent), simple)
  }

  /** The lines printed for the selected lists, one list after the other. */
  function SelectedLines(a: Args, recent: seq<Post>, permanent: seq<Post>, simple: bool): seq<string>
  {
    var ss := Sections(a);
    SectionLines(ss[0], recent, permanent, simple)
    + (if |ss| == 2 then SectionLines(ss[1], recent, permanent, simple) else [])
  }

  /** Which posts are rendered, flag combination by flag combination: with
      neither flag all permanent posts and then all recent ones, a single flag
      its own list, and the permanent list when both flags are given. Each
      list keeps its order, and no post is dropped or repeated. */
  lemma SelectionByFlags(a: Args, recent: seq<Post>, permanent: seq<Post>)
    ensures a.permanent ==> SelectedPosts(a, recent, permanent) == permanent
    ensures !a.permanent && a.recent ==> SelectedPosts(a, recent, permanent) == recent
    ensures !a.permanent && !a.recent ==> SelectedPosts(a, recent, permanent) == permanent + recent
    ensures multiset(SelectedPosts(a, recent, permanent))
            == (if a.permanent || !a.recent then multiset(permanent) else multiset{})
             + (if !a.permanent then multiset(recent) else multiset{})
  {
    assert permanent + [] == permanent;
    assert recent + [] == recent;
  }

  /** The printed sections, flag combination by flag combination. */
  lemma SelectedLinesByFlags(a: Args, recent: seq<Post>, permanent: seq<Post>, simple: bool)
    ensures a.permanent ==>
      SelectedLines(a, recent, permanent, simple) == SectionLines(Permanent, recent, permanent, simple)
    ensures !a.permanent && a.recent ==>
      SelectedLines(a, recent, permanent, simple) == SectionLines(Recent, recent, permanent, simple)
    ensures !a.permanent && !a.recent ==>
      SelectedLines(a, recent, permanent, simple)
      == SectionLines(Permanent, recent, permanent, simple) + SectionLines(Recent, recent, permanent, simple)
  {
    assert SectionLines(Permanent, recent, permanent, simple) + [] == SectionLines(Permanent, recent, permanent, simple);
    assert SectionLines(Recent, recent, permanent, simple) + [] == SectionLines(Recent, recent, permanent, simple);
  }

  /** In simple mode a section is its posts' URLs and nothing more. */
  lemma SimpleSectionLines(recent: seq<Post>, permanent: seq<Post>)
    ensures SectionLines(Permanent, recent, permanent, true) == PostsLines(permanent, true)
    ensures SectionLines(Recent, recent, permanent, true) == PostsLines(recent, true)
  {
    assert [] + PostsLines(permanent, true) == PostsLines(permanent, true);
    assert [] + PostsLines(recent, true) == PostsLines(recent, true);
  }

  /** In simple mode the printed sections are exactly the simple rendering of
      the selected posts. */
  lemma SelectedLinesSimple(a: Args, recent: seq<Post>, permanent: seq<Post>)
    ensures SelectedLines(a, recent, permanent, true) == PostsLines(SelectedPosts(a, recent, permanent), true)
  {
    SelectionByFlags(a, recent, permanent);
    SelectedLinesByFlags(a, recent, permanent, true);
    SimpleSectionLines(recent, permanent);
    PostsLinesAppend(permanent, recent, true);
  }

  const SendingLine: string := "Sending request to Pixiv API..."
  const ErrorNotice: string := "The pixiv API returned an Error:"
  const EmptyNoticeStart: string := "Pixiv API returned an empty list, "
  const EmptyNoticeEnd: string := " is probably not a valid Pixiv Tag!"

  /** The message for an empty list, naming the search term verbatim. */
  function EmptyNotice(term: string): (line: string)
    ensures |line| == |EmptyNoticeStart| + |term| + |EmptyNoticeEnd|
    ensures line[|EmptyNoticeStart|..|EmptyNoticeStart| + |term|] == term
  {
    EmptyNoticeStart + term + EmptyNoticeEnd
  }

  /** The closing line; the elapsed time is measured and formatted outside the model. */
  function TookLine(elapsed: string): string
  {
    "Took: " + elapsed
  }

  /** The line printed before the request, unless in simple mode. */
  function Preamble(a: Args): seq<string>
  {
    if a.simple then [] else [SendingLine]
  }

  /** What a run prints on standard output and how it ends. */
  datatype Trace = Trace(stdout: seq<string>, exit: Exit)

  /** The behaviour of the whole program, branch by branch. */
  function Expected(a: Args, r: Response, elapsed: string): Trace
  {
    match Classify(r)
    case Abort(status) => Trace(Preamble(a), status)
    case Reported(dump) => Trace(Preamble(a) + [ErrorNotice, dump], Success)
    case NoResults => Trace(Preamble(a) + ["", EmptyNotice(a.term)], Success)
    case Show(recent, permanent) =>
      Trace(Preamble(a)
          + SelectedLines(a, recent, permanent, a.simple)
          + (if a.simple then [] else [TookLine(elapsed)]),
          Success)
  }

  /** `main` after argument parsing: the response stands for the network
      call and the JSON parse, and `elapsed` for the formatted duration.
      Every line `main` prints is finished before it returns, so the
      finished lines are all of its output. */
  method Execute(args: Args, response: Response, elapsed: string) returns (stdout: seq<string>, exit: Exit)
    ensures Trace(stdout, exit) == Expected(args, response, elapsed)
  {
    var out := new Stdout();
    if !args.simple {
      out.PrintLine(SendingLine);
    }
    ghost var preamble := out.lines;
    assert preamble == Preamble(args);

    if response.TransportFailure? || response.NotJson? {
      assert out.pending == "";
      return out.lines, ErrReturned;
    }

    if response.ApiError? {
      out.PrintLine(ErrorNotice);
      out.PrintLine(response.dump);
      assert Classify(response) == Reported(response.dump);
      assert out.pending == "";
      return out.lines, Success;
    }

    if response.Malformed? {
      assert out.pending == "";
      return out.lines, Panicked;
    }

    var recent, permanent := response.recent, response.permanent;
    if |permanent| == 0 || |recent| == 0 {
      out.PrintLine("");
      out.PrintLine(EmptyNotice(args.term));
      assert Classify(response) == NoResults;
      assert out.pending == "";
      return out.lines, Success;
    }

    assert Classify(response) == Show(recent, permanent);
    ghost var body := SelectedLines(args, recent, permanent, args.simple);
    if args.simple {
      PrintSimple(out, args, recent, permanent);
      assert out.lines == preamble + body + [];
      assert out.pending == "";
      return out.lines, Success;
    }
    PrintVerbose(out, args, recent, permanent);
    out.PrintLine(TookLine(elapsed));
    assert out.pending == "";
    return out.lines, Success;
  }


  /** The simple-mode branch of `main` (src/main.rs:95-105): the selected
      lists as bare URLs, without headers. */
  method PrintSimple(out: Stdout, args: Args, recent: seq<Post>, permanent: seq<Post>)
    requires out.pending == ""
    modifies out
    ensures out.lines == old(out.lines) + SelectedLines(args, recent, permanent, true)
    ensures out.pending == ""
  {
    SelectedLinesByFlags(args, recent, permanent, true);
    SimpleSectionLines(recent, permanent);
    ghost var before := out.lines;
    ghost var all := SelectedLines(args, recent, permanent, true);
    ghost var pl := PostsLines(permanent, true);
    ghost var rl := PostsLines(recent, true);
    if args.permanent {
      assert all == pl;
      PrintPosts(out, permanent, true);
    } else if args.recent {
      assert all == rl;
      PrintPosts(out, recent, true);
    } else {
      assert all == pl + rl;
      PrintPosts(out, permanent, true);
      assert out.lines == before + pl;
      PrintPosts(out, recent, true);
      AppendAssoc(before, pl, rl);
    }
  }

  /** The verbose-mode branch of `main` (src/main.rs:107-118): each selected
      list after its header. */
  method PrintVerbose(out: Stdout, args: Args, recent: seq<Post>, permanent: seq<Post>)
    requires out.pending == ""
    modifies out
    ensures out.lines == old(out.lines) + SelectedLines(args, recent, permanent, false)
    ensures out.pending == ""
  {
    SelectedLinesByFlags(args, recent, permanent, false);
    ghost var before := out.lines;
    ghost var all := SelectedLines(args, recent, permanent, false);
    if args.permanent {
      PrintSection(out, Permanent, recent, permanent);
      assert out.lines == before + all;
    } else if args.recent {
      PrintSection(out, Recent, recent, permanent);
      assert out.lines == before + all;
    } else {
      PrintSection(out, Permanent, recent, permanent);
      PrintSection(out, Recent, recent, permanent);
      AppendAssoc(before, SectionLines(Permanent, recent, permanent, false), SectionLines(Recent, recent, permanent, false));
    }
  }

  /** One verbose section of `main`: two empty lines and the header, then
      the list's posts. */
  method PrintSection(out: Stdout, s: Section, recent: seq<Post>, permanent: seq<Post>)
    requires out.pending == ""
    modifies out
    ensures out.lines == old(out.lines) + SectionLines(s, recent, permanent, false) && out.pending == ""
  {
    out.PrintLine("");
    out.PrintLine("");
    out.PrintLine(Header(s));
    PrintPosts(out, ListOf(s, recent, permanent), false);
  }

  /** The permanent flag takes precedence: once it is given, the recent flag
      changes nothing in the run. */
  lemma PermanentFlagWins(a: Args, r: Response, e: string)
    requires a.permanent
    ensures Expected(a, r, e) == Expected(a.(recent := !a.recent), r, e)
  {
    assert Sections(a) == Sections(a.(recent := !a.recent)) == [Permanent];
  }

  /** When the API reports an error, the notice and the payload are printed
      after the usual first line, no post is rendered, and the run succeeds,
      whatever the term and the list flags. */
  lemma ApiErrorReported(a: Args, b: Args, dump: string, e1: string, e2: string)
    requires a.simple == b.simple
    ensures Expected(a, ApiError(dump), e1) == Trace(Preamble(a) + [ErrorNotice, dump], Success)
    ensures Expected(a, ApiError(dump), e1) == Expected(b, ApiError(dump), e2)
  {
  }

  /** A response without the expected `body.popular` shape aborts the run
      with a panic, after nothing but the usual first line. */
  lemma ShapeMismatchPanics(a: Args, e: string)
    ensures Expected(a, Malformed, e) == Trace(Preamble(a), Panicked)
  {
  }

  /** A failed request or a body that is not JSON makes `main` return an
      error through `?`, after nothing but the usual first line. */
  lemma RequestOrJsonFailureFails(a: Args, e: string)
    ensures Expected(a, TransportFailure, e) == Trace(Preamble(a), ErrReturned)
    ensures Expected(a, NotJson, e) == Trace(Preamble(a), ErrReturned)
  {
  }

  /** When either list is empty, not only when both are, the run prints the
      notice naming the term and succeeds without rendering a post. */
  lemma EmptyListNotice(a: Args, recent: seq<Post>, permanent: seq<Post>, e: string)
    requires recent == [] || permanent == []
    ensures Expected(a, Popular(recent, permanent), e) == Trace(Preamble(a) + ["", EmptyNotice(a.term)], Success)
  {
  }

  /** In simple mode a successful run prints exactly one line per selected
      post, its artwork URL, and no other line. */
  lemma SimpleModeOutput(a: Args, recent: seq<Post>, permanent: seq<Post>, e: string)
    requires a.simple && recent != [] && permanent != []
    ensures Expected(a, Popular(recent, permanent), e).exit == Success
    ensures |Expected(a, Popular(recent, permanent), e).stdout| == |SelectedPosts(a, recent, permanent)|
    ensures forall i :: 0 <= i < |SelectedPosts(a, recent, permanent)| ==>
      Expected(a, Popular(recent, permanent), e).stdout[i] == PostUrl(SelectedPosts(a, recent, permanent)[i])
  {
    var out := Expected(a, Popular(recent, permanent), e).stdout;
    SelectedLinesSimple(a, recent, permanent);
    PostsLinesSimple(SelectedPosts(a, recent, permanent));
    assert out == [] + SelectedLines(a, recent, permanent, true) + [];
  }

  /** In verbose mode a successful run prints the first line, then each
      selected list after two empty lines and its header, then the time taken. */
  lemma VerboseModeOutput(a: Args, recent: seq<Post>, permanent: seq<Post>, e: string)
    requires !a.simple && recent != [] && permanent != []
    ensures Expected(a, Popular(recent, permanent), e).exit == Success
    ensures a.permanent ==>
      Expected(a, Popular(recent, permanent), e).stdout ==
      [SendingLine] + SectionLines(Permanent, recent, permanent, false) + [TookLine(e)]
    ensures !a.permanent && a.recent ==>
      Expected(a, Popular(recent, permanent), e).stdout ==
      [SendingLine] + SectionLines(Recent, recent, permanent, false) + [TookLine(e)]
    ensures !a.permanent && !a.recent ==>
      Expected(a, Popular(recent, permanent), e).stdout ==
      [SendingLine] + SectionLines(Permanent, recent, permanent, false)
      + SectionLines(Recent, recent, permanent, false) + [TookLine(e)]
    ensures |Expected(a, Popular(recent, permanent), e).stdout|
            == 2 + 3 * |Sections(a)| + 5 * |SelectedPosts(a, recent, permanent)|
  {
    var r := Popular(recent, permanent);
    assert Classify(r) == Show(recent, permanent);
    SelectedLinesByFlags(a, recent, permanent, false);
    var ps := SectionLines(Permanent, recent, permanent, false);
    var rs := SectionLines(Recent, recent, permanent, false);
    if !a.permanent && !a.recent {
      AppendAssoc([SendingLine], ps, rs);
    }
    LengthOfSectionLines(recent, permanent);
  }

  /** Each verbose section takes three lines plus five per post. */
  lemma LengthOfSectionLines(recent: seq<Post>, permanent: seq<Post>)
    ensures |SectionLines(Permanent, recent, permanent, false)| == 3 + 5 * |permanent|
    ensures |SectionLines(Recent, recent, permanent, false)| == 3 + 5 * |recent|
  {
    PostsLinesVerbose(recent);
    PostsLinesVerbose(permanent);
  }
}
