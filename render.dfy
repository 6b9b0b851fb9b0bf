/** How one post, and a list of posts, appear on standard output. */
module Render {
  import opened Posts
  import opened Console
  import opened Seqs

  const PostLabel: string := "Post: "
  const TitleLabel: string := "   -> Title: "
  const PostedByLabel: string := "   -> Posted by: "

  /** The three lines the alternate (`{:#}`) form of `Display` prints for a post. */
  function VerboseBlock(p: Post): seq<string>
  {
    [ PostLabel + PostUrl(p),
      TitleLabel + p.title,
      PostedByLabel + p.userName + " (" + UserUrl(p) + ")" ]
  }

  /** The lines one iteration of `print_posts` leaves on standard output: the
      bare artwork URL in simple mode; otherwise the verbose block followed by
      two empty lines, the explicit "\n" of the format string and the newline
      of `println!`, since `Display` itself writes nothing to the formatter. */
  function PostLines(p: Post, simple: bool): seq<string>
  {
    if simple then [PostUrl(p)] else VerboseBlock(p) + ["", ""]
  }

  /** The lines `print_posts` leaves on standard output for a whole list. */
  function PostsLines(posts: seq<Post>, simple: bool): seq<string>
  {
    if posts == [] then [] else PostLines(posts[0], simple) + PostsLines(posts[1..], simple)
  }

  /** Rendering a concatenation renders the parts one after the other. */
  lemma {:induction false} PostsLinesAppend(xs: seq<Post>, ys: seq<Post>, simple: bool)
    ensures PostsLines(xs + ys, simple) == PostsLines(xs, simple) + PostsLines(ys, simple)
  {
    if xs != [] {
      assert (xs + ys)[1..] == xs[1..] + ys;
      PostsLinesAppend(xs[1..], ys, simple);
    } else {
      assert xs + ys == ys;
    }
  }

  /** Rendering one more post appends its lines. */
  lemma PostsLinesSnoc(xs: seq<Post>, p: Post, simple: bool)
    ensures PostsLines(xs + [p], simple) == PostsLines(xs, simple) + PostLines(p, simple)
  {
    PostsLinesAppend(xs, [p], simple);
    assert PostsLines([p], simple) == PostLines(p, simple) + PostsLines([], simple);
  }

  /** In simple mode every post gives exactly one line, its artwork URL, in list order. */
  lemma {:induction false} PostsLinesSimple(posts: seq<Post>)
    ensures |PostsLines(posts, true)| == |posts|
    ensures forall i :: 0 <= i < |posts| ==> PostsLines(posts, true)[i] == PostUrl(posts[i])
  {
    if posts != [] {
      PostsLinesSimple(posts[1..]);
    }
  }

  /** In verbose mode every post takes five lines. */
  lemma {:induction false} PostsLinesVerboseLength(posts: seq<Post>)
    ensures |PostsLines(posts, false)| == 5 * |posts|
  {
    if posts != [] {
      PostsLinesVerboseLength(posts[1..]);
    }
  }

  /** In verbose mode line k of the block of post i is line k of that post's lines. */
  lemma {:induction false} PostsLinesVerboseAt(posts: seq<Post>, i: nat, k: nat)
    requires i < |posts| && k < 5
    ensures 5 * i + k < |PostsLines(posts, false)|
    ensures PostsLines(posts, false)[5 * i + k] == PostLines(posts[i], false)[k]
  {
    PostsLinesVerboseLength(posts);
    if i > 0 {
      PostsLinesVerboseAt(posts[1..], i - 1, k);
      assert PostsLines(posts, false) == PostLines(posts[0], false) + PostsLines(posts[1..], false);
    }
  }

  /** In verbose mode every post gives a block of five lines, in list order: its
      artwork URL, its title, its author's name with the profile URL, and two
      empty lines. */
  lemma PostsLinesVerbose(posts: seq<Post>)
    ensures |PostsLines(posts, false)| == 5 * |posts|
    ensures forall i :: 0 <= i < |posts| ==>
      PostsLines(posts, false)[5 * i] == PostLabel + PostUrl(posts[i]) &&
      PostsLines(posts, false)[5 * i + 1] == TitleLabel + posts[i].title &&
      PostsLines(posts, false)[5 * i + 2] == PostedByLabel + posts[i].userName + " (" + UserUrl(posts[i]) + ")" &&
      PostsLines(posts, false)[5 * i + 3] == "" &&
      PostsLines(posts, false)[5 * i + 4] == ""
  {
    PostsLinesVerboseLength(posts);
    forall i | 0 <= i < |posts|
      ensures PostsLines(posts, false)[5 * i] == PostLabel + PostUrl(posts[i])
      ensures PostsLines(posts, false)[5 * i + 1] == TitleLabel + posts[i].title
      ensures PostsLines(posts, false)[5 * i + 2] == PostedByLabel + posts[i].userName + " (" + UserUrl(posts[i]) + ")"
      ensures PostsLines(posts, false)[5 * i + 3] == ""
      ensures PostsLines(posts, false)[5 * i + 4] == ""
    {
      PostsLinesVerboseAt(posts, i, 0);
      PostsLinesVerboseAt(posts, i, 1);
      PostsLinesVerboseAt(posts, i, 2);
      PostsLinesVerboseAt(posts, i, 3);
      PostsLinesVerboseAt(posts, i, 4);
    }
  }

  /** `impl Display for Post`. The alternate form prints the verbose block line
      by line itself; the plain form prints the artwork URL without a newline.
      Neither writes to the formatter. */
  method DisplayPost(out: Stdout, p: Post, alternate: bool)
    requires out.pending == ""
    modifies out
    ensures alternate ==> out.lines == old(out.lines) + VerboseBlock(p) && out.pending == ""
    ensures !alternate ==> out.lines == old(out.lines) && out.pending == PostUrl(p)
  {
    if alternate {
      out.PrintLine(PostLabel + PostUrl(p));
      out.PrintLine(TitleLabel + p.title);
      out.PrintLine(PostedByLabel + p.userName + " (" + UserUrl(p) + ")");
      assert out.lines == old(out.lines) + VerboseBlock(p);
    } else {
      out.Print(PostUrl(p));
    }
  }

  /** One iteration of `print_posts`: `println!("{:#}\n", post)` in verbose
      mode, `println!("{}", post)` in simple mode. */
  method PrintPost(out: Stdout, p: Post, simple: bool)
    requires out.pending == ""
    modifies out
    ensures out.lines == old(out.lines) + PostLines(p, simple) && out.pending == ""
  {
    if !simple {
      DisplayPost(out, p, true);
      out.PrintLine("");
      out.PrintLine("");
      AppendAssoc(old(out.lines), VerboseBlock(p), [""]);
      AppendAssoc(old(out.lines), VerboseBlock(p) + [""], [""]);
      AppendAssoc(VerboseBlock(p), [""], [""]);
    } else {
      DisplayPost(out, p, false);
      out.PrintLine("");
      assert PostUrl(p) + "" == PostUrl(p);
    }
  }

  /** `print_posts`: each post in turn, in the form the simple flag chooses. */
  method PrintPosts(out: Stdout, posts: seq<Post>, simple: bool)
    requires out.pending == ""
    modifies out
    ensures out.lines == old(out.lines) + PostsLines(posts, simple) && out.pending == ""
  {
    for i := 0 to |posts|
      invariant out.lines == old(out.lines) + PostsLines(posts[..i], simple)
      invariant out.pending == ""
    {
      PrintPost(out, posts[i], simple);
      PostsLinesSnoc(posts[..i], posts[i], simple);
      AppendAssoc(old(out.lines), PostsLines(posts[..i], simple), PostLines(posts[i], simple));
      assert posts[..i + 1] == posts[..i] + [posts[i]];
    }
    assert posts[..|posts|] == posts;
  }
}
