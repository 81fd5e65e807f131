/**
 * URL query strings as the client writes them: `path?k1=v1&k2=v2`, with no
 * percent-encoding. `ReadUrl` is an independent reference reader (split on
 * `?`, then `&`, then `=`); it strips no `#` fragment and decodes neither
 * `%XX` nor `+`. The round-trip lemmas say that a server reading the text
 * recovers exactly the parameters written, provided no key or value holds a
 * character a server would treat specially there: `&`, `=`, `?`, `#`, `%`
 * or `+`.
 */
module Query {
  import opened Text

  datatype Param = Param(key: string, value: string)

  /**
   * A key or value a server reads back verbatim: no delimiter (`&`, `=`,
   * `?`), no fragment mark (`#`), and nothing a server decodes (`%`, `+`).
   */
  predicate Plain(s: string) {
    '&' !in s && '=' !in s && '?' !in s && '#' !in s && '%' !in s && '+' !in s
  }

  predicate AllPlain(ps: seq<Param>) {
    forall i :: 0 <= i < |ps| ==> Plain(ps[i].key) && Plain(ps[i].value)
  }

  /** `k=v` */
  function Render(p: Param): string {
    p.key + "=" + p.value
  }

  function RenderAll(ps: seq<Param>): (segs: seq<string>)
    ensures |segs| == |ps|
    ensures forall i :: 0 <= i < |ps| ==> segs[i] == Render(ps[i])
  {
    if |ps| == 0 then [] else [Render(ps[0])] + RenderAll(ps[1..])
  }

  /** `k1=v1&k2=v2&...` */
  function Encode(ps: seq<Param>): string {
    Join(RenderAll(ps), '&')
  }

  /** `path?query` */
  function Url(path: string, ps: seq<Param>): string {
    path + "?" + Encode(ps)
  }

  /** Reads one `k=v` segment: the key ends at the first `=`; the value runs to the next one. */
  function ReadParam(seg: string): Param {
    var kv := Split(seg, '=');
    Param(kv[0], if |kv| > 1 then kv[1] else "")
  }

  function ReadAll(segs: seq<string>): (ps: seq<Param>)
    ensures |ps| == |segs|
    ensures forall i :: 0 <= i < |segs| ==> ps[i] == ReadParam(segs[i])
  {
    if |segs| == 0 then [] else [ReadParam(segs[0])] + ReadAll(segs[1..])
  }

  function Decode(q: string): seq<Param> {
    ReadAll(Split(q, '&'))
  }

  /** Path and parameters of a relative URL, as a server reads them. */
  function ReadUrl(u: string): (string, seq<Param>) {
    var pq := Split(u, '?');
    (pq[0], if |pq| > 1 then Decode(pq[1]) else [])
  }

  /** True when `ps` carries a parameter named `k`. */
  predicate HasKey(ps: seq<Param>, k: string) {
    exists i :: 0 <= i < |ps| && ps[i].key == k
  }

  lemma ReadRender(p: Param)
    requires Plain(p.key) && Plain(p.value)
    ensures ReadParam(Render(p)) == p
  {
    assert Render(p) == p.key + ['='] + p.value;
    SplitAtFirst(p.key, p.value, '=');
    SplitNoSeparator(p.value, '=');
  }

  lemma {:induction false} ReadAllRenderAll(ps: seq<Param>)
    requires AllPlain(ps)
    ensures ReadAll(RenderAll(ps)) == ps
    decreases |ps|
  {
    if |ps| > 0 {
      ReadRender(ps[0]);
      ReadAllRenderAll(ps[1..]);
      assert RenderAll(ps)[1..] == RenderAll(ps[1..]);
    }
  }

  /** Decoding an encoded non-empty parameter list gives the list back. */
  lemma DecodeEncode(ps: seq<Param>)
    requires |ps| >= 1
    requires AllPlain(ps)
    ensures Decode(Encode(ps)) == ps
  {
    var segs := RenderAll(ps);
    forall i | 0 <= i < |segs|
      ensures '&' !in segs[i]
    {
      assert segs[i] == ps[i].key + "=" + ps[i].value;
    }
    SplitJoin(segs, '&');
    ReadAllRenderAll(ps);
  }

  /** A server reading `Url(path, ps)` recovers `path` and `ps` exactly. */
  lemma ReadUrlInverse(path: string, ps: seq<Param>)
    requires Plain(path)
    requires |ps| >= 1
    requires AllPlain(ps)
    ensures ReadUrl(Url(path, ps)) == (path, ps)
  {
    var q := Encode(ps);
    var segs := RenderAll(ps);
    forall i | 0 <= i < |segs|
      ensures '?' !in segs[i]
    {
      assert segs[i] == ps[i].key + "=" + ps[i].value;
    }
    JoinFree(segs, '&', '?');
    assert Url(path, ps) == path + ['?'] + q;
    SplitAtFirst(path, q, '?');
    SplitNoSeparator(q, '?');
    DecodeEncode(ps);
  }

  /** Joining parts free of `x` with a separator other than `x` yields a string free of `x`. */
  lemma {:induction false} JoinFree(parts: seq<string>, c: char, x: char)
    requires c != x
    requires forall i :: 0 <= i < |parts| ==> x !in parts[i]
    ensures x !in Join(parts, c)
    decreases |parts|
  {
    if |parts| > 1 {
      JoinFree(parts[1..], c, x);
    }
  }

  /**
   * A URL that starts `path?key=value&` is read with that path and that
   * first parameter, whatever follows: text after the first `&` cannot reach
   * back into the first parameter.
   */
  lemma ReadUrlFirstParam(u: string, path: string, key: string, value: string)
    requires Plain(path) && Plain(key) && Plain(value)
    requires path + "?" + Render(Param(key, value)) + "&" <= u
    ensures ReadUrl(u).0 == path
    ensures |ReadUrl(u).1| >= 1 && ReadUrl(u).1[0] == Param(key, value)
  {
    var head := Render(Param(key, value));
    var tail := u[|path| + 1..];
    assert u == path + ['?'] + tail;
    SplitAtFirst(path, tail, '?');
    assert head + "&" <= tail;
    FirstSegment(tail, head);
    var q := Split(tail, '?')[0];
    assert Split(u, '?')[1] == q;
    ReadRender(Param(key, value));
    assert Decode(q)[0] == ReadParam(head);
  }

  /** The query text of a URL that starts `head&` yields `head` as its first segment, read as a parameter. */
  lemma FirstSegment(tail: string, head: string)
    requires head + "&" <= tail
    requires '?' !in head && '&' !in head
    ensures var q := Split(tail, '?')[0]; Split(q, '&')[0] == head
  {
    FreePrefixKept(tail, head + "&", '?');
    var q := Split(tail, '?')[0];
    var rest := q[|head| + 1..];
    assert q == head + ['&'] + rest;
    SplitAtFirst(head, rest, '&');
  }
}
