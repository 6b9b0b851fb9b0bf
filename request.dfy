/** The search request sent to the pixiv API. */
module Request {
  import opened Seqs

  datatype Option<T> = None | Some(value: T)

  const Endpoint: string := "https://www.pixiv.net/ajax/search/artworks/"
  const WordParam: string := "?word="
  const LangSuffix: string := "&lang=en"

  /** The request URL: the term, unescaped, once as the last path segment and
      once as the `word` parameter, and English results asked for. */
  function RequestUrl(term: string): (url: string)
    ensures |url| == |Endpoint| + |WordParam| + |LangSuffix| + 2 * |term|
    ensures url[..|Endpoint|] == Endpoint
    ensures url[|Endpoint|..|Endpoint| + |term|] == term
    ensures url[|Endpoint| + |term|..|Endpoint| + |term| + |WordParam|] == WordParam
    ensures url[|Endpoint| + |term| + |WordParam|..|url| - |LangSuffix|] == term
    ensures url[|url| - |LangSuffix|..] == LangSuffix
  {
    Endpoint + term + WordParam + term + LangSuffix
  }

  /** Reads the search term back out of a request URL, piece by piece; None
      when the string is not one. */
  function TermOf(url: string): Option<string>
  {
    var fixed := |Endpoint| + |WordParam| + |LangSuffix|;
    if |url| < fixed || (|url| - fixed) % 2 != 0 then None
    else
      var n := (|url| - fixed) / 2;
      var path := url[|Endpoint|..|Endpoint| + n];
      if url[..|Endpoint|] == Endpoint
         && url[|Endpoint| + n..|Endpoint| + n + |WordParam|] == WordParam
         && url[|Endpoint| + n + |WordParam|..|url| - |LangSuffix|] == path
         && url[|url| - |LangSuffix|..] == LangSuffix
      then Some(path)
      else None
  }

  /** The term can be read back from the URL built from it, whatever it holds:
      it is inserted verbatim. */
  lemma TermOfRequestUrl(term: string)
    ensures TermOf(RequestUrl(term)) == Some(term)
  {
    var url := RequestUrl(term);
    var fixed := |Endpoint| + |WordParam| + |LangSuffix|;
    assert (|url| - fixed) / 2 == |term|;
  }

  /** Every string the term can be read from is the request URL of that term. */
  lemma RequestUrlOfTermOf(url: string, term: string)
    requires TermOf(url) == Some(term)
    ensures RequestUrl(term) == url
  {
    var a := |Endpoint|;
    var b := a + |term|;
    var c := b + |WordParam|;
    var d := |url| - |LangSuffix|;
    FiveParts(url, a, b, c, d);
  }

  /** Different terms give different request URLs. */
  lemma RequestUrlInjective(t1: string, t2: string)
    ensures RequestUrl(t1) == RequestUrl(t2) <==> t1 == t2
  {
    if RequestUrl(t1) == RequestUrl(t2) {
      TermOfRequestUrl(t1);
      TermOfRequestUrl(t2);
    }
  }
}
