/** One artwork returned by the pixiv search API, and the canonical pixiv
    URLs built from it. */
module Posts {

  const ArtworkPrefix: string := "https://www.pixiv.net/en/artworks/"
  const UserPrefix: string := "https://www.pixiv.net/en/users/"

  /** A search result. The API sends the last two fields as `userName` and
      `userId`; the renaming happens while deserialising, outside this model. */
  datatype Post = Post(id: string, title: string, userName: string, userId: string)

  /** The artwork page of a post: the artwork prefix followed by the id, verbatim. */
  function PostUrl(p: Post): (url: string)
    ensures |url| == |ArtworkPrefix| + |p.id|
    ensures url[..|ArtworkPrefix|] == ArtworkPrefix
    ensures url[|ArtworkPrefix|..] == p.id
  {
    ArtworkPrefix + p.id
  }

  /** The profile page of the post's author: the user prefix followed by the user id, verbatim. */
  function UserUrl(p: Post): (url: string)
    ensures |url| == |UserPrefix| + |p.userId|
    ensures url[..|UserPrefix|] == UserPrefix
    ensures url[|UserPrefix|..] == p.userId
  {
    UserPrefix + p.userId
  }

  /** Two strings behind the same prefix are equal exactly when the prefixed strings are. */
  lemma PrefixCancels(prefix: string, x: string, y: string)
    ensures prefix + x == prefix + y <==> x == y
  {
    if prefix + x == prefix + y {
      assert x == (prefix + x)[|prefix|..];
      assert y == (prefix + y)[|prefix|..];
    }
  }

  /** The artwork URL depends on the id and on nothing else, and different ids
      give different URLs. */
  lemma PostUrlDependsOnlyOnId(p: Post, q: Post)
    ensures PostUrl(p) == PostUrl(q) <==> p.id == q.id
  {
    PrefixCancels(ArtworkPrefix, p.id, q.id);
  }

  /** The user URL depends on the user id and on nothing else, and different
      user ids give different URLs. */
  lemma UserUrlDependsOnlyOnUserId(p: Post, q: Post)
    ensures UserUrl(p) == UserUrl(q) <==> p.userId == q.userId
  {
    PrefixCancels(UserPrefix, p.userId, q.userId);
  }
}
