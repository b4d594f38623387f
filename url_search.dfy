/** The part of the browser's `URLSearchParams` that the app relies on:
    `new URLSearchParams(search).get(name)`. */
module UrlSearch {
  import opened Common

  /** `s.split(sep)` for a one-character separator. */
  function Split(s: string, sep: char): (parts: seq<string>)
    ensures |parts| >= 1
    ensures forall k :: 0 <= k < |parts| ==> sep !in parts[k]
    decreases |s|
  {
    var i := FirstIndex(s, sep);
    if i == |s| then [s] else [s[..i]] + Split(s[i + 1..], sep)
  }

  /** `parts.join(sep)`. */
  function Join(parts: seq<string>, sep: char): string
    requires |parts| >= 1
  {
    if |parts| == 1 then parts[0] else parts[0] + [sep] + Join(parts[1..], sep)
  }

  /** Splitting undoes joining pieces that do not contain the separator. */
  lemma {:induction false} SplitJoin(parts: seq<string>, sep: char)
    requires |parts| >= 1
    requires forall k :: 0 <= k < |parts| ==> sep !in parts[k]
    ensures Split(Join(parts, sep), sep) == parts
  {
    if |parts| > 1 {
      var head := parts[0];
      var tail := parts[1..];
      var rest := Join(tail, sep);
      var s := head + [sep] + rest;
      assert Join(parts, sep) == s;
      FirstIndexAfter(head, sep, rest);
      assert s[..|head|] == head && s[|head| + 1..] == rest;
      assert Split(s, sep) == [head] + Split(rest, sep);
      assert forall k :: 0 <= k < |tail| ==> sep !in tail[k] by {
        forall k | 0 <= k < |tail| ensures sep !in tail[k] {
          assert tail[k] == parts[k + 1];
        }
      }
      SplitJoin(tail, sep);
      assert parts == [head] + tail;
    }
  }

  /** One `name=value` piece: the name runs up to the first `=`; a piece
      without `=` has the empty value. */
  function ParsePiece(piece: string): (string, string)
  {
    var i := FirstIndex(piece, '=');
    if i == |piece| then (piece, "") else (piece[..i], piece[i + 1..])
  }

  /** The query without its leading `?`. */
  function QueryBody(search: string): string
  {
    if |search| > 0 && search[0] == '?' then search[1..] else search
  }

  /** The value of the first non-empty piece named `name`. */
  function FindValue(pieces: seq<string>, name: string): Option<string>
  {
    if pieces == [] then None
    else if pieces[0] != "" && ParsePiece(pieces[0]).0 == name then Some(ParsePiece(pieces[0]).1)
    else FindValue(pieces[1..], name)
  }

  /** `new URLSearchParams(search).get(name)`: `None` stands for `null`. */
  function Get(search: string, name: string): Option<string>
  {
    FindValue(Split(QueryBody(search), '&'), name)
  }

  /** The value of the first pair named `name`. */
  function Lookup(pairs: seq<(string, string)>, name: string): Option<string>
  {
    if pairs == [] then None
    else if pairs[0].0 == name then Some(pairs[0].1)
    else Lookup(pairs[1..], name)
  }

  function Pieces(pairs: seq<(string, string)>): (pieces: seq<string>)
    ensures |pieces| == |pairs|
    ensures forall k :: 0 <= k < |pairs| ==> pieces[k] == pairs[k].0 + "=" + pairs[k].1
  {
    if pairs == [] then [] else [pairs[0].0 + "=" + pairs[0].1] + Pieces(pairs[1..])
  }

  /** The query string `?n1=v1&n2=v2...` written from name/value pairs. */
  function Query(pairs: seq<(string, string)>): string
    requires |pairs| >= 1
  {
    "?" + Join(Pieces(pairs), '&')
  }

  /** Names that contain neither `&` nor `=`, values that contain no `&`. */
  predicate Plain(pairs: seq<(string, string)>)
  {
    forall k :: 0 <= k < |pairs| ==> '&' !in pairs[k].0 && '=' !in pairs[k].0 && '&' !in pairs[k].1
  }

  /** Reading a parameter back from a written query finds its first value. */
  lemma GetQuery(pairs: seq<(string, string)>, name: string)
    requires |pairs| >= 1 && Plain(pairs)
    ensures Get(Query(pairs), name) == Lookup(pairs, name)
  {
    var pieces := Pieces(pairs);
    forall k | 0 <= k < |pieces| ensures '&' !in pieces[k] {
      assert pieces[k] == pairs[k].0 + "=" + pairs[k].1;
    }
    assert QueryBody(Query(pairs)) == Join(pieces, '&');
    SplitJoin(pieces, '&');
    FindPieces(pairs, name);
  }

  lemma {:induction false} FindPieces(pairs: seq<(string, string)>, name: string)
    requires Plain(pairs)
    ensures FindValue(Pieces(pairs), name) == Lookup(pairs, name)
  {
    if pairs != [] {
      var (n, v) := pairs[0];
      var piece := n + "=" + v;
      assert piece == n + ['='] + v;
      FirstIndexAfter(n, '=', v);
      assert piece[..|n|] == n && piece[|n| + 1..] == v;
      assert ParsePiece(piece) == (n, v);
      assert Pieces(pairs)[1..] == Pieces(pairs[1..]);
      FindPieces(pairs[1..], name);
    }
  }

  /** The empty query carries no parameter. */
  lemma GetEmpty(name: string)
    ensures Get("", name) == None
  {
    assert QueryBody("") == "";
    assert Split("", '&') == [""];
    assert FindValue([""], name) == FindValue([], name);
  }
}
