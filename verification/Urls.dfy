/** Output urls: the writer used for new documents, the reader used for stored ones, and the paths
    given to catchups. */
module Urls {
  import opened Common
  import opened Bson
  import opened Infos

  // ---- reading -------------------------------------------------------------------------------

  function Int32At(d: Doc, k: Key): Option<int32> {
    match First(d, k) case Some(I32(n)) => Some(n) case _ => None
  }

  function TextAt(d: Doc, k: Key): Option<string> {
    match First(d, k) case Some(Utf8(s)) => Some(s) case _ => None
  }

  /** One element of an `output` array; elements without an int32 id and a text uri are skipped. */
  function ReadOutput(lib: Library, v: Value): Option<OutputUri> {
    if !v.Document? || Int32At(v.fields, URL_ID_FIELD) == None || TextAt(v.fields, URI_FIELD) == None then None
    else Some(OutputUri(Int32At(v.fields, URL_ID_FIELD).value,
                        lib.gurl(TextAt(v.fields, URI_FIELD).value),
                        match TextAt(v.fields, HTTP_ROOT_FIELD) case None => None case Some(s) => Some(lib.directory(s)),
                        Int32At(v.fields, HLS_TYPE_FIELD)))
  }

  function ReadOutputs(lib: Library, items: seq<Value>): seq<OutputUri> {
    Collect((v: Value) => ReadOutput(lib, v), items)
  }

  /** The body of the reader's loop: each field is sought by a cursor of its own. */
  method ParseOutput(lib: Library, item: Value) returns (out: Option<OutputUri>)
    ensures out == ReadOutput(lib, item)
  {
    if !item.Document? {
      return None;
    }
    var bid := First(item.fields, URL_ID_FIELD);
    if bid.None? || !bid.value.I32? {
      return None;
    }
    var burl := First(item.fields, URI_FIELD);
    if burl.None? || !burl.value.Utf8? {
      return None;
    }
    var uri := OutputUri(bid.value.i, lib.gurl(burl.value.text), None, None);
    var root := First(item.fields, HTTP_ROOT_FIELD);
    if root.Some? && root.value.Utf8? {
      uri := uri.(httpRoot := Some(lib.directory(root.value.text)));
    }
    var hls := First(item.fields, HLS_TYPE_FIELD);
    if hls.Some? && hls.value.I32? {
      uri := uri.(hlsType := Some(hls.value.i));
    }
    out := Some(uri);
  }

  method GetOutputUrlData(lib: Library, v: Value) returns (ok: bool, urls: seq<OutputUri>)
    ensures ok == v.Array?
    ensures ok ==> urls == ReadOutputs(lib, v.items)
  {
    if !v.Array? {
      return false, [];
    }
    urls := [];
    var i := 0;
    while i < |v.items|
      invariant 0 <= i <= |v.items|
      invariant urls == ReadOutputs(lib, v.items[..i])
    {
      ReadOutputsStep(lib, v.items, i);
      var out := ParseOutput(lib, v.items[i]);
      if out.Some? {
        urls := urls + [out.value];
      }
      i := i + 1;
    }
    assert v.items[..i] == v.items;
    ok := true;
  }

  lemma ReadOutputsStep(lib: Library, items: seq<Value>, i: nat)
    requires i < |items|
    ensures ReadOutputs(lib, items[..i + 1]) == ReadOutputs(lib, items[..i])
      + match ReadOutput(lib, items[i]) case None => [] case Some(out) => [out]
  {
    CollectStep((v: Value) => ReadOutput(lib, v), items, i);
  }

  // ---- writing -------------------------------------------------------------------------------

  function WriteOutput(classes: Classes, out: OutputUri): Value {
    Document([Field(CLS_FIELD, Utf8(classes.outputUrl)), Field(URL_ID_FIELD, I32(out.id)), Field(URI_FIELD, Utf8(out.url))]
             + (if out.httpRoot.Some? then [Field(HTTP_ROOT_FIELD, Utf8(out.httpRoot.value))] else [])
             + (if out.hlsType.Some? then [Field(HLS_TYPE_FIELD, I32(out.hlsType.value))] else []))
  }

  function WriteOutputs(classes: Classes, urls: seq<OutputUri>): seq<Value> {
    seq(|urls|, i requires 0 <= i < |urls| => WriteOutput(classes, urls[i]))
  }

  method CreateOutputUrl(classes: Classes, result: Doc, urls: seq<OutputUri>) returns (doc: Doc)
    ensures doc == result + [Field(OUTPUT_FIELD, Array(WriteOutputs(classes, urls)))]
  {
    var child: seq<Value> := [];
    var i := 0;
    while i < |urls|
      invariant 0 <= i <= |urls|
      invariant child == WriteOutputs(classes, urls[..i])
    {
      var out := urls[i];
      var url: Doc := [Field(CLS_FIELD, Utf8(classes.outputUrl)), Field(URL_ID_FIELD, I32(out.id)), Field(URI_FIELD, Utf8(out.url))];
      if out.httpRoot.Some? {
        url := url + [Field(HTTP_ROOT_FIELD, Utf8(out.httpRoot.value))];
      }
      if out.hlsType.Some? {
        url := url + [Field(HLS_TYPE_FIELD, I32(out.hlsType.value))];
      }
      assert Document(url).fields == WriteOutput(classes, out).fields;
      child := child + [Document(url)];
      i := i + 1;
    }
    assert urls[..i] == urls;
    doc := result + [Field(OUTPUT_FIELD, Array(child))];
  }

  /** The url and the directory are already in the form their parsers produce. */
  predicate Canonical(lib: Library, out: OutputUri) {
    && lib.gurl(out.url) == out.url
    && (out.httpRoot.Some? ==> lib.directory(out.httpRoot.value) == out.httpRoot.value)
  }

  lemma WrittenOutputRead(lib: Library, classes: Classes, out: OutputUri)
    ensures ReadOutput(lib, WriteOutput(classes, out)).Some?
    ensures ReadOutput(lib, WriteOutput(classes, out)) == Some(out) <==> Canonical(lib, out)
  {
    var head := [Field(CLS_FIELD, Utf8(classes.outputUrl)), Field(URL_ID_FIELD, I32(out.id)), Field(URI_FIELD, Utf8(out.url))];
    var root := if out.httpRoot.Some? then [Field(HTTP_ROOT_FIELD, Utf8(out.httpRoot.value))] else [];
    var hls := if out.hlsType.Some? then [Field(HLS_TYPE_FIELD, I32(out.hlsType.value))] else [];
    assert WriteOutput(classes, out).fields == head + root + hls;
    assert First(head, URL_ID_FIELD) == Some(head[1].value) by { NextAtIs(head, URL_ID_FIELD, 0, 1); }
    assert First(head, URI_FIELD) == Some(head[2].value) by { NextAtIs(head, URI_FIELD, 0, 2); }
    assert First(head, HTTP_ROOT_FIELD) == None by { NextAtIs(head, HTTP_ROOT_FIELD, 0, 3); }
    assert First(head, HLS_TYPE_FIELD) == None by { NextAtIs(head, HLS_TYPE_FIELD, 0, 3); }
    ShortFields(head, root, hls, URL_ID_FIELD);
    ShortFields(head, root, hls, URI_FIELD);
    ShortFields(head, root, hls, HTTP_ROOT_FIELD);
    ShortFields(head, root, hls, HLS_TYPE_FIELD);
  }

  lemma ShortFields(a: Doc, b: Doc, c: Doc, k: Key)
    ensures First(a + b + c, k) == if First(a, k).Some? then First(a, k)
                                   else if First(b, k).Some? then First(b, k) else First(c, k)
  {
    FirstConcat(a + b, c, k);
    FirstConcat(a, b, k);
  }

  /** Written urls carry the class of their kind. */
  lemma UrlClasses(classes: Classes, urls: seq<OutputUri>, i: nat)
    requires i < |urls|
    ensures WriteOutputs(classes, urls)[i].Document? && WriteInputs(classes, urls)[i].Document?
    ensures First(WriteOutputs(classes, urls)[i].fields, CLS_FIELD) == Some(Utf8(classes.outputUrl))
    ensures First(WriteInputs(classes, urls)[i].fields, CLS_FIELD) == Some(Utf8(classes.inputUrl))
  {
    NextAtIs(WriteOutputs(classes, urls)[i].fields, CLS_FIELD, 0, 0);
  }

  /** The reader inverts the writer exactly on canonical lists. */
  lemma {:induction false} OutputRoundTrip(lib: Library, classes: Classes, urls: seq<OutputUri>)
    ensures ReadOutputs(lib, WriteOutputs(classes, urls)) == urls <==> forall out :: out in urls ==> Canonical(lib, out)
    ensures |ReadOutputs(lib, WriteOutputs(classes, urls))| == |urls|
  {
    if urls != [] {
      var n := |urls| - 1;
      var init, back := urls[..n], ReadOutputs(lib, WriteOutputs(classes, urls[..n]));
      OutputRoundTrip(lib, classes, init);
      assert WriteOutputs(classes, urls)[..n] == WriteOutputs(classes, init) && WriteOutputs(classes, urls)[..n + 1] == WriteOutputs(classes, urls);
      ReadOutputsStep(lib, WriteOutputs(classes, urls), n);
      WrittenOutputRead(lib, classes, urls[n]);
      var last := ReadOutput(lib, WriteOutput(classes, urls[n])).value;
      assert ReadOutputs(lib, WriteOutputs(classes, urls)) == back + [last];
      assert urls == init + [urls[n]];
      assert back + [last] == urls <==> back == init && last == urls[n] by {
        assert (back + [last])[..n] == back && (back + [last])[n] == last;
      }
      assert forall out :: out in urls <==> out in init || out == urls[n];
    }
  }

  // ---- catchup paths -------------------------------------------------------------------------

  function Digit(n: nat): char
    requires n < 10
  {
    "0123456789"[n]
  }

  /** %d of a non-negative number. */
  function Decimal(n: nat): (s: string)
    ensures s != [] && forall c :: c in s ==> c != '/'
  {
    if n < 10 then [Digit(n)] else Decimal(n / 10) + [Digit(n % 10)]
  }

  /** The number a text of digits stands for. */
  function NumberOf(s: string): int {
    if s == [] then 0 else 10 * NumberOf(s[..|s| - 1]) + (s[|s| - 1] as int - '0' as int)
  }

  lemma {:induction false} DecimalValue(n: nat)
    ensures NumberOf(Decimal(n)) == n && forall c :: c in Decimal(n) ==> '0' <= c <= '9'
  {
    var s := Decimal(n);
    assert Digit(n % 10) as int - '0' as int == n % 10;
    if n >= 10 {
      DecimalValue(n / 10);
      assert s[..|s| - 1] == Decimal(n / 10);
    } else {
      assert s[..0] == [] && NumberOf(s[..0]) == 0;
    }
  }

  /** %u of an int32. */
  function AsUnsigned(n: int32): nat {
    (n as int) % 0x1_0000_0000
  }

  lemma {:induction false} DecimalInjective(a: nat, b: nat)
    requires Decimal(a) == Decimal(b)
    ensures a == b
  {
    var s, t := Decimal(a), Decimal(b);
    assert s[|s| - 1] == t[|t| - 1];
    assert Digit(a % 10) == Digit(b % 10);
    if a >= 10 {
      assert |s| >= 2;
      assert b >= 10;
      assert s[..|s| - 1] == Decimal(a / 10) && t[..|t| - 1] == Decimal(b / 10);
      DecimalInjective(a / 10, b / 10);
    } else {
      assert |s| == 1;
      assert b < 10;
    }
  }

  /** `<type>/<catchup id>/<output id>` */
  function PostfixDir(number: nat, sid: string, id: int32): string {
    Decimal(number) + "/" + sid + "/" + Decimal(AsUnsigned(id))
  }

  function CatchupUrlText(host: string, postfix: string): string {
    "http://" + host + "/" + postfix + "/master.m3u8"
  }

  lemma PostfixDirInjective(number: nat, s: string, i: int32, t: string, j: int32)
    requires '/' !in s && '/' !in t
    requires PostfixDir(number, s, i) == PostfixDir(number, t, j)
    ensures s == t && i == j
  {
    PostfixDirTail(number, s, i);
    PostfixDirTail(number, t, j);
    SlashSplit(s, Decimal(AsUnsigned(i)), t, Decimal(AsUnsigned(j)));
    AsUnsignedInjective(i, j);
  }

  lemma UnsignedSame(i: int32, j: int32)
    requires AsUnsigned(i) == AsUnsigned(j)
    ensures i == j
  {
  }

  lemma AsUnsignedInjective(i: int32, j: int32)
    requires Decimal(AsUnsigned(i)) == Decimal(AsUnsigned(j))
    ensures i == j
  {
    var a, b := AsUnsigned(i), AsUnsigned(j);
    DecimalInjective(a, b);
    UnsignedSame(i, j);
  }

  lemma PostfixDirTail(number: nat, s: string, i: int32)
    ensures |Decimal(number)| + 1 <= |PostfixDir(number, s, i)|
    ensures PostfixDir(number, s, i)[|Decimal(number)| + 1..] == s + "/" + Decimal(AsUnsigned(i))
  {
  }

  lemma SlashSplit(s: string, u: string, t: string, v: string)
    requires '/' !in s && '/' !in t && s + "/" + u == t + "/" + v
    ensures s == t && u == v
  {
    var p, q := s + "/" + u, t + "/" + v;
    assert p[|s|] == '/' && q[|t|] == '/';
    assert forall i :: 0 <= i < |t| ==> q[i] == t[i] && t[i] != '/';
    assert forall i :: 0 <= i < |s| ==> p[i] == s[i] && s[i] != '/';
    assert |s| == |t|;
    assert s == p[..|s|] && t == q[..|t|];
    assert u == p[|s| + 1..] && v == q[|t| + 1..];
  }

  /** Two catchup outputs share a url text only if they are the same output of the same catchup. */
  lemma CatchupUrlInjective(host: string, number: nat, s: string, i: int32, t: string, j: int32)
    requires '/' !in s && '/' !in t
    requires CatchupUrlText(host, PostfixDir(number, s, i)) == CatchupUrlText(host, PostfixDir(number, t, j))
    ensures s == t && i == j
  {
    var p, q := PostfixDir(number, s, i), PostfixDir(number, t, j);
    var a, b := CatchupUrlText(host, p), CatchupUrlText(host, q);
    var n := |"http://" + host + "/"|;
    assert |a| == n + |p| + 12 && |b| == n + |q| + 12;
    assert a[n..n + |p|] == p && b[n..n + |q|] == q;
    PostfixDirInjective(number, s, i, t, j);
  }

  /** The outputs of a catchup: same ids, in order, moved to the catchup host. */
  function CatchupOutput(lib: Library, out: OutputUri, sid: string, host: string, root: string): OutputUri {
    var postfix := PostfixDir(lib.catchupNumber, sid, out.id);
    var dir := lib.subdirectory(root, postfix);
    out.(url := lib.gurl(CatchupUrlText(host, postfix)), httpRoot := if dir.Some? then dir else out.httpRoot)
  }

  function CatchupOutputs(lib: Library, urls: seq<OutputUri>, sid: string, host: string, root: string): seq<OutputUri> {
    seq(|urls|, i requires 0 <= i < |urls| => CatchupOutput(lib, urls[i], sid, host, root))
  }

  /** Every output keeps its id and hls type, and is found under the catchup's own path on the catchup host;
      its root is the one made for that path, if there can be one. */
  lemma OutputsMoved(lib: Library, urls: seq<OutputUri>, sid: string, host: string, root: string)
    ensures var outs := CatchupOutputs(lib, urls, sid, host, root);
            && |outs| == |urls|
            && forall i :: 0 <= i < |urls| ==>
                 var path := Decimal(lib.catchupNumber) + "/" + sid + "/" + Decimal(AsUnsigned(urls[i].id));
                 && outs[i].id == urls[i].id && outs[i].hlsType == urls[i].hlsType
                 && outs[i].url == lib.gurl("http://" + host + "/" + path + "/master.m3u8")
                 && outs[i].httpRoot == (match lib.subdirectory(root, path) case None => urls[i].httpRoot case Some(dir) => Some(dir))
  {
    forall i | 0 <= i < |urls| ensures CatchupOutputs(lib, urls, sid, host, root)[i] == CatchupOutput(lib, urls[i], sid, host, root) {
    }
  }

  /** With a parser that keeps different urls apart, no two outputs of catchups share a url, unless they are
      outputs with one id of one catchup. */
  lemma CatchupUrlsApart(lib: Library, urls: seq<OutputUri>, s: string, more: seq<OutputUri>, t: string, host: string,
                         root: string, i: nat, j: nat)
    requires forall x, y :: lib.gurl(x) == lib.gurl(y) ==> x == y
    requires '/' !in s && '/' !in t && i < |urls| && j < |more|
    requires CatchupOutputs(lib, urls, s, host, root)[i].url == CatchupOutputs(lib, more, t, host, root)[j].url
    ensures s == t && urls[i].id == more[j].id
  {
    CatchupUrlInjective(host, lib.catchupNumber, s, urls[i].id, t, more[j].id);
  }

  method CreateCatchupOutputUrl(lib: Library, result: Doc, urls: seq<OutputUri>, sid: string, host: string,
                                root: string)
    returns (doc: Doc, patched: seq<OutputUri>)
    ensures patched == CatchupOutputs(lib, urls, sid, host, root)
    ensures doc == result + [Field(OUTPUT_FIELD, Array(WriteOutputs(lib.classes, patched)))]
  {
    patched := [];
    var i := 0;
    while i < |urls|
      invariant 0 <= i <= |urls|
      invariant patched == CatchupOutputs(lib, urls[..i], sid, host, root)
    {
      var out := urls[i];
      var postfix := PostfixDir(lib.catchupNumber, sid, out.id);
      out := out.(url := lib.gurl(CatchupUrlText(host, postfix)));
      var dir := lib.subdirectory(root, postfix);
      if dir.Some? {
        out := out.(httpRoot := dir);
      }
      patched := patched + [out];
      i := i + 1;
    }
    assert urls[..i] == urls;
    doc := CreateOutputUrl(lib.classes, result, patched);
  }

  // ---- inputs of a catchup -------------------------------------------------------------------

  function WriteInputs(classes: Classes, urls: seq<OutputUri>): seq<Value> {
    seq(|urls|, i requires 0 <= i < |urls| =>
      Document([Field(CLS_FIELD, Utf8(classes.inputUrl)), Field(URL_ID_FIELD, I32(urls[i].id)), Field(URI_FIELD, Utf8(urls[i].url))]))
  }

  /** The inputs of a catchup are the ids and urls of the outputs it is recorded from. */
  lemma InputsRead(lib: Library, classes: Classes, urls: seq<OutputUri>, i: nat)
    requires i < |urls|
    ensures |WriteInputs(classes, urls)| == |urls|
    ensures ReadOutput(lib, WriteInputs(classes, urls)[i]) == Some(OutputUri(urls[i].id, lib.gurl(urls[i].url), None, None))
  {
    var f := WriteInputs(classes, urls)[i].fields;
    assert f == [Field(CLS_FIELD, Utf8(classes.inputUrl)), Field(URL_ID_FIELD, I32(urls[i].id)), Field(URI_FIELD, Utf8(urls[i].url))];
    NextAtIs(f, URL_ID_FIELD, 0, 1);
    NextAtIs(f, URI_FIELD, 0, 2);
    NextAtIs(f, HTTP_ROOT_FIELD, 0, 3);
    NextAtIs(f, HLS_TYPE_FIELD, 0, 3);
  }

  method CreateInputUrl(classes: Classes, result: Doc, urls: seq<OutputUri>) returns (doc: Doc)
    ensures doc == result + [Field(INPUT_FIELD, Array(WriteInputs(classes, urls)))]
  {
    var child: seq<Value> := [];
    var i := 0;
    while i < |urls|
      invariant 0 <= i <= |urls|
      invariant child == WriteInputs(classes, urls[..i])
    {
      child := child + [Document([Field(CLS_FIELD, Utf8(classes.inputUrl)), Field(URL_ID_FIELD, I32(urls[i].id)),
                                  Field(URI_FIELD, Utf8(urls[i].url))])];
      i := i + 1;
    }
    assert urls[..i] == urls;
    doc := result + [Field(INPUT_FIELD, Array(child))];
  }
}
