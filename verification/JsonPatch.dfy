/** JSON documents, JSON Pointer (RFC 6901) and the add and remove operations of JSON Patch (RFC 6902). */
module JsonPatch {
  import opened Collections
  import opened Text

  datatype Json =
    | Null
    | Bool(b: bool)
    | Num(n: int)
    | Str(s: string)
    | Arr(items: seq<Json>)
    | Obj(members: map<string, Json>)

  // ---------- JSON Pointer: RFC 6901, sections 3 to 5 ----------

  function Escape(token: string): string {
    if token == [] then []
    else (if token[0] == '~' then "~0" else if token[0] == '/' then "~1" else [token[0]]) + Escape(token[1..])
  }

  /** "~1" stands for a slash and "~0" for a tilde; a tilde before anything else is an error. */
  function Unescape(s: string): Option<string> {
    if s == [] then Some([])
    else if s[0] != '~' then
      (match Unescape(s[1..])
       case Some(rest) => Some([s[0]] + rest)
       case None => None)
    else if |s| < 2 || s[1] !in {'0', '1'} then None
    else
      match Unescape(s[2..])
      case Some(rest) => Some([if s[1] == '0' then '~' else '/'] + rest)
      case None => None
  }

  function UnescapeAll(parts: seq<string>): Option<seq<string>> {
    if parts == [] then Some([])
    else
      match (Unescape(parts[0]), UnescapeAll(parts[1..]))
      case (Some(t), Some(rest)) => Some([t] + rest)
      case _ => None
  }

  /** The reference tokens of a pointer; the empty pointer names the whole document. */
  function ParsePointer(pointer: string): Option<seq<string>> {
    if pointer == [] then Some([])
    else if pointer[0] != '/' then None
    else UnescapeAll(Split(pointer[1..], '/'))
  }

  function RenderPointer(tokens: seq<string>): string {
    if tokens == [] then [] else "/" + Escape(tokens[0]) + RenderPointer(tokens[1..])
  }

  lemma {:induction false} EscapeRoundTrip(token: string)
    ensures Unescape(Escape(token)) == Some(token)
    ensures '/' !in Escape(token)
  {
    if token != [] {
      EscapeRoundTrip(token[1..]);
      var e := Escape(token);
      var rest := Escape(token[1..]);
      if token[0] == '~' || token[0] == '/' {
        assert e[2..] == rest;
      } else {
        assert e[1..] == rest;
      }
      assert [token[0]] + token[1..] == token;
    }
  }

  /** The parts of a written pointer give the tokens back. */
  ghost predicate ReadsBack(tokens: seq<string>) {
    var p := RenderPointer(tokens);
    p != [] && p[0] == '/' && UnescapeAll(Split(p[1..], '/')) == Some(tokens)
  }

  lemma {:induction false} RenderedParts(tokens: seq<string>)
    requires tokens != []
    ensures ReadsBack(tokens)
  {
    hide ReadsBack;
    if |tokens| == 1 {
      LastPart(tokens[0]);
      assert tokens == [tokens[0]];
    } else {
      RenderedParts(tokens[1..]);
      OnePartMore(tokens[0], tokens[1..]);
      assert tokens == [tokens[0]] + tokens[1..];
    }
  }

  lemma LastPart(token: string)
    ensures ReadsBack([token])
  {
    EscapeRoundTrip(token);
    assert RenderPointer([token])[1..] == Escape(token);
    SplitPlain(Escape(token), '/');
    FirstPart(Escape(token), token, []);
    assert [token] + [] == [token];
  }

  lemma PointerOf(token: string, rest: seq<string>)
    ensures RenderPointer([token] + rest) == "/" + (Escape(token) + RenderPointer(rest))
  {
    assert ([token] + rest)[1..] == rest;
    hide Escape;
    assert "/" + Escape(token) + RenderPointer(rest) == "/" + (Escape(token) + RenderPointer(rest));
  }

  lemma OnePartMore(token: string, rest: seq<string>)
    requires ReadsBack(rest)
    ensures ReadsBack([token] + rest)
  {
    EscapeRoundTrip(token);
    PointerOf(token, rest);
    hide RenderPointer, Escape, Unescape, UnescapeAll, Split;
    var tail := Escape(token) + RenderPointer(rest);
    assert ("/" + tail)[1..] == tail;
    NextPart(Escape(token), RenderPointer(rest), token, rest);
  }

  lemma NextPart(e: string, tail: string, token: string, rest: seq<string>)
    requires '/' !in e && Unescape(e) == Some(token)
    requires tail != [] && tail[0] == '/' && UnescapeAll(Split(tail[1..], '/')) == Some(rest)
    ensures UnescapeAll(Split(e + tail, '/')) == Some([token] + rest)
  {
    assert e + tail == e + ['/'] + tail[1..];
    SplitFirst(e, tail[1..], '/');
    FirstPart(e, token, Split(tail[1..], '/'));
  }

  lemma FirstPart(e: string, token: string, parts: seq<string>)
    requires Unescape(e) == Some(token)
    ensures UnescapeAll([e] + parts) == match UnescapeAll(parts) case Some(rest) => Some([token] + rest) case None => None
    ensures [e] + [] == [e]
  {
    assert ([e] + parts)[1..] == parts;
  }

  /** Every token list can be written as a pointer and read back. */
  lemma PointerRoundTrip(tokens: seq<string>)
    ensures ParsePointer(RenderPointer(tokens)) == Some(tokens)
  {
    if tokens != [] {
      RenderedParts(tokens);
    }
  }

  /** A token without tilde and slash is written as it is. */
  lemma {:induction false} EscapePlain(token: string)
    requires '~' !in token && '/' !in token
    ensures Escape(token) == token
  {
    if token != [] {
      EscapePlain(token[1..]);
    }
  }

  // ---------- add and remove: RFC 6902, sections 4.1 and 4.2 ----------

  /** An array index: digits without a leading zero. */
  function ArrayIndex(token: string): Option<nat> {
    if token != [] && AllDigits(token) && (|token| == 1 || token[0] != '0') then Some(DigitsValue(token, |token|)) else None
  }

  function Add(doc: Json, path: seq<string>, value: Json): Option<Json>
    decreases |path|
  {
    if path == [] then Some(value)
    else
      match doc
      case Obj(m) =>
        if |path| == 1 then Some(Obj(m[path[0] := value]))
        else if path[0] !in m then None
        else
          (match Add(m[path[0]], path[1..], value)
           case Some(x) => Some(Obj(m[path[0] := x]))
           case None => None)
      case Arr(a) =>
        if |path| == 1 && path[0] == "-" then Some(Arr(a + [value]))
        else if ArrayIndex(path[0]).None? then None
        else
          var i := ArrayIndex(path[0]).value;
          if |path| == 1 then (if i <= |a| then Some(Arr(a[..i] + [value] + a[i..])) else None)
          else if i >= |a| then None
          else
            (match Add(a[i], path[1..], value)
             case Some(x) => Some(Arr(a[i := x]))
             case None => None)
      case _ => None
  }

  /** The target location must exist. */
  function Remove(doc: Json, path: seq<string>): Option<Json>
    decreases |path|
  {
    if path == [] then None
    else
      match doc
      case Obj(m) =>
        if path[0] !in m then None
        else if |path| == 1 then Some(Obj(m - {path[0]}))
        else
          (match Remove(m[path[0]], path[1..])
           case Some(x) => Some(Obj(m[path[0] := x]))
           case None => None)
      case Arr(a) =>
        if ArrayIndex(path[0]).None? || ArrayIndex(path[0]).value >= |a| then None
        else
          var i := ArrayIndex(path[0]).value;
          if |path| == 1 then Some(Arr(a[..i] + a[i + 1..]))
          else
            (match Remove(a[i], path[1..])
             case Some(x) => Some(Arr(a[i := x]))
             case None => None)
      case _ => None
  }

  /** An operation with its pointer already parsed. */
  datatype Edit = AddEdit(path: seq<string>, value: Json) | RemoveEdit(path: seq<string>)

  function ApplyEdit(doc: Json, e: Edit): Option<Json> {
    match e
    case AddEdit(path, value) => Add(doc, path, value)
    case RemoveEdit(path) => Remove(doc, path)
  }

  function ApplyEdits(doc: Json, es: seq<Edit>): Option<Json>
    decreases |es|
  {
    if es == [] then Some(doc)
    else
      match ApplyEdit(doc, es[0])
      case Some(d) => ApplyEdits(d, es[1..])
      case None => None
  }

  /** The operation as the webhook writes it. */
  datatype PatchOp = AddOp(path: string, value: Json) | RemoveOp(path: string)

  function ApplyOp(doc: Json, op: PatchOp): Option<Json> {
    match ParsePointer(op.path)
    case Some(tokens) => ApplyEdit(doc, if op.AddOp? then AddEdit(tokens, op.value) else RemoveEdit(tokens))
    case None => None
  }

  /** Operations apply one after the other; the first failure fails the patch (RFC 6902, sections 3 and 5). */
  function ApplyPatch(doc: Json, ops: seq<PatchOp>): Option<Json>
    decreases |ops|
  {
    if ops == [] then Some(doc)
    else
      match ApplyOp(doc, ops[0])
      case Some(d) => ApplyPatch(d, ops[1..])
      case None => None
  }

  function RenderOp(e: Edit): PatchOp {
    match e
    case AddEdit(path, value) => AddOp(RenderPointer(path), value)
    case RemoveEdit(path) => RemoveOp(RenderPointer(path))
  }

  function RenderOps(es: seq<Edit>): (ops: seq<PatchOp>)
    ensures |ops| == |es|
  {
    seq(|es|, i requires 0 <= i < |es| => RenderOp(es[i]))
  }

  /** Applying rendered edits is applying the edits. */
  lemma {:induction false} RenderedApply(doc: Json, es: seq<Edit>)
    ensures ApplyPatch(doc, RenderOps(es)) == ApplyEdits(doc, es)
    decreases |es|
  {
    if es != [] {
      PointerRoundTrip(es[0].path);
      assert RenderOps(es)[1..] == RenderOps(es[1..]);
      match ApplyEdit(doc, es[0])
      case Some(d) => RenderedApply(d, es[1..]);
      case None =>
    }
  }

  // ---------- Composing edits ----------

  lemma {:induction false} ApplyConcat(doc: Json, a: seq<Edit>, b: seq<Edit>)
    ensures ApplyEdits(doc, a + b) == (match ApplyEdits(doc, a) case Some(d) => ApplyEdits(d, b) case None => None)
    decreases |a|
  {
    if a == [] {
      assert a + b == b;
    } else {
      assert (a + b)[1..] == a[1..] + b;
      match ApplyEdit(doc, a[0])
      case Some(d) => ApplyConcat(d, a[1..], b);
      case None =>
    }
  }

  function PrefixEdit(key: string, e: Edit): Edit {
    e.(path := [key] + e.path)
  }

  /** The same edits one level further down. */
  function Prefix(key: string, es: seq<Edit>): (r: seq<Edit>)
    ensures |r| == |es|
  {
    seq(|es|, i requires 0 <= i < |es| => PrefixEdit(key, es[i]))
  }

  ghost predicate Nested(es: seq<Edit>) {
    forall i :: 0 <= i < |es| ==> es[i].path != []
  }

  function InObject(m: map<string, Json>, key: string, r: Option<Json>): Option<Json> {
    match r
    case Some(x) => Some(Obj(m[key := x]))
    case None => None
  }

  lemma InObjectTwice(m: map<string, Json>, key: string, x: Json, r: Option<Json>)
    ensures InObject(m[key := x], key, r) == InObject(m, key, r)
  {
    if r.Some? {
      assert m[key := x][key := r.value] == m[key := r.value];
    }
  }

  lemma EditUnderKey(m: map<string, Json>, key: string, e: Edit)
    requires key in m && e.path != []
    ensures ApplyEdit(Obj(m), PrefixEdit(key, e)) == InObject(m, key, ApplyEdit(m[key], e))
  {
    assert ([key] + e.path)[1..] == e.path;
  }

  /** Edits below a member change that member and nothing else. */
  lemma {:induction false} EditsUnderKey(m: map<string, Json>, key: string, es: seq<Edit>)
    requires key in m && Nested(es)
    ensures ApplyEdits(Obj(m), Prefix(key, es)) == InObject(m, key, ApplyEdits(m[key], es))
    decreases |es|
  {
    if es == [] {
      assert m[key := m[key]] == m;
    } else {
      EditUnderKey(m, key, es[0]);
      assert Prefix(key, es)[1..] == Prefix(key, es[1..]);
      match ApplyEdit(m[key], es[0])
      case Some(x) =>
        EditsUnderKey(m[key := x], key, es[1..]);
        InObjectTwice(m, key, x, ApplyEdits(x, es[1..]));
      case None =>
    }
  }

  function InArray(a: seq<Json>, i: nat, r: Option<Json>): Option<Json>
    requires i < |a|
  {
    match r
    case Some(x) => Some(Arr(a[i := x]))
    case None => None
  }

  lemma InArrayTwice(a: seq<Json>, i: nat, x: Json, r: Option<Json>)
    requires i < |a|
    ensures InArray(a[i := x], i, r) == InArray(a, i, r)
  {
    if r.Some? {
      assert a[i := x][i := r.value] == a[i := r.value];
    }
  }

  lemma IndexToken(i: nat)
    ensures ArrayIndex(Itoa(i)) == Some(i) && Itoa(i) != "-"
  {
    NatRoundTrip(i);
    NoLeadingZero(i);
  }

  lemma {:induction false} NoLeadingZero(i: nat)
    ensures |NatToString(i)| == 1 || NatToString(i)[0] != '0'
  {
    if i >= 10 {
      NoLeadingZero(i / 10);
      if i / 10 < 10 {
        assert NatToString(i / 10) == [DigitChar(i / 10)];
      }
    }
  }

  lemma EditUnderIndex(a: seq<Json>, i: nat, e: Edit)
    requires i < |a| && e.path != []
    ensures ApplyEdit(Arr(a), PrefixEdit(Itoa(i), e)) == InArray(a, i, ApplyEdit(a[i], e))
  {
    IndexToken(i);
    assert ([Itoa(i)] + e.path)[1..] == e.path;
  }

  lemma {:induction false} EditsUnderIndex(a: seq<Json>, i: nat, es: seq<Edit>)
    requires i < |a| && Nested(es)
    ensures ApplyEdits(Arr(a), Prefix(Itoa(i), es)) == InArray(a, i, ApplyEdits(a[i], es))
    decreases |es|
  {
    if es == [] {
      assert a[i := a[i]] == a;
    } else {
      EditUnderIndex(a, i, es[0]);
      assert Prefix(Itoa(i), es)[1..] == Prefix(Itoa(i), es[1..]);
      match ApplyEdit(a[i], es[0])
      case Some(x) =>
        EditsUnderIndex(a[i := x], i, es[1..]);
        InArrayTwice(a, i, x, ApplyEdits(x, es[1..]));
      case None =>
    }
  }

  /** For each of the first n elements its own edits, element by element. */
  function Each(local: seq<seq<Edit>>, n: nat): seq<Edit>
    requires n <= |local|
  {
    if n == 0 then [] else Each(local, n - 1) + Prefix(Itoa(n - 1), local[n - 1])
  }

  lemma {:induction false} EachElement(a: seq<Json>, local: seq<seq<Edit>>, out: seq<Json>, n: nat)
    requires |a| == |local| == |out| && n <= |a|
    requires forall i :: 0 <= i < |a| ==> Nested(local[i]) && ApplyEdits(a[i], local[i]) == Some(out[i])
    ensures ApplyEdits(Arr(a), Each(local, n)) == Some(Arr(out[..n] + a[n..]))
  {
    if n == 0 {
      assert out[..0] + a[0..] == a;
    } else {
      EachElement(a, local, out, n - 1);
      ApplyConcat(Arr(a), Each(local, n - 1), Prefix(Itoa(n - 1), local[n - 1]));
      NextElement(a, out, out[..n - 1] + a[n - 1..], n - 1, local[n - 1]);
    }
  }

  lemma NextElement(a: seq<Json>, out: seq<Json>, b: seq<Json>, i: nat, es: seq<Edit>)
    requires i < |a| == |out| && b == out[..i] + a[i..]
    requires Nested(es) && ApplyEdits(a[i], es) == Some(out[i])
    ensures ApplyEdits(Arr(b), Prefix(Itoa(i), es)) == Some(Arr(out[..i + 1] + a[i + 1..]))
  {
    assert b[i] == a[i];
    EditsUnderIndex(b, i, es);
    assert b[i := out[i]] == out[..i + 1] + a[i + 1..];
  }
}
