// The values templates are rendered against, the renderer and JSON reader
// the core treats as black boxes, and the `fn:replaceAtSymbol` template
// function (service/substitution/ReplaceAtSymbolFunction.java).
module Values {
  import opened Wrappers
  import opened Strings
  import opened Errors

  /** A JSON-like value: what the substitution contexts are built from. */
  datatype Value =
    | Null
    | Bool(b: bool)
    | Int(i: int)
    | Str(s: string)
    | List(items: seq<Value>)
    | Object(fields: map<string, Value>)

  /** Jinjava's `renderForResult`: the output, or None when it reports errors. */
  type Renderer = (string, Value) -> Option<string>

  /** `JSON.readObjectForSubstitution`; None exactly when the text is not JSON,
   *  so `JSON.isJsonStr(s)` is `ReadJson(s).Some?`. */
  type JsonReader = string -> Option<Value>

  /** `new String(bytes)` in the platform charset. */
  type TextDecoder = seq<byte> -> string

  /** The black boxes a substitution needs, passed together. */
  datatype Substitution = Substitution(render: Renderer, readJson: JsonReader, decode: TextDecoder)

  /** `SubstitutionEngine.render`: the output, or SUBSTITUTION_FAILED when the
   *  engine reports errors. Every failing template fails the same way. */
  function Render(render: Renderer, template: string, ctx: Value): (r: Result<string, Error>)
    ensures r.Ok? <==> render(template, ctx).Some?
    ensures r.Ok? ==> r.value == render(template, ctx).value
    ensures r.Err? ==> r.error == RestError(SubstitutionFailed)
  {
    match render(template, ctx)
    case Some(out) => Ok(out)
    case None => Err(RestError(SubstitutionFailed))
  }

  /** Renders each template of a list in order, as a stream `map(render)`
   *  does: the outputs, or the failure of the first template that fails. */
  function RenderEach(render: Renderer, templates: seq<string>, ctx: Value): (r: Result<seq<string>, Error>)
    ensures r.Ok? <==> forall i :: 0 <= i < |templates| ==> render(templates[i], ctx).Some?
    ensures r.Ok? ==> |r.value| == |templates| &&
                      forall i :: 0 <= i < |templates| ==> r.value[i] == render(templates[i], ctx).value
    ensures r.Err? ==> r.error == RestError(SubstitutionFailed)
  {
    if |templates| == 0 then Ok([])
    else
      var head :- Render(render, templates[0], ctx);
      var tail :- RenderEach(render, templates[1..], ctx);
      assert forall i :: 1 <= i < |templates| ==> templates[i] == templates[1..][i - 1];
      Ok([head] + tail)
  }

  /** Every template list of a name-to-templates map rendered, the names
   *  kept. Any template that fails fails the whole map, whatever the order
   *  the map is walked in, since every failure is SUBSTITUTION_FAILED. */
  function RenderValues(m: map<string, seq<string>>, render: Renderer, ctx: Value): (r: Result<map<string, seq<string>>, Error>)
    ensures r.Ok? <==> forall k :: k in m ==> RenderEach(render, m[k], ctx).Ok?
    ensures r.Ok? ==> r.value.Keys == m.Keys
    ensures r.Ok? ==> forall k :: k in m ==> r.value[k] == RenderEach(render, m[k], ctx).value
    ensures r.Err? ==> r.error == RestError(SubstitutionFailed)
  {
    if forall k :: k in m ==> RenderEach(render, m[k], ctx).Ok? then
      Ok(map k | k in m :: RenderEach(render, m[k], ctx).value)
    else
      Err(RestError(SubstitutionFailed))
  }

  lemma OneFailingListFailsAll(m: map<string, seq<string>>, render: Renderer, ctx: Value, k: string)
    requires k in m && RenderEach(render, m[k], ctx).Err?
    ensures RenderValues(m, render, ctx) == Err(RenderEach(render, m[k], ctx).error)
  {
  }

  lemma AllListsRendered(m: map<string, seq<string>>, render: Renderer, ctx: Value, out: map<string, seq<string>>)
    requires out.Keys == m.Keys
    requires forall k :: k in out ==> RenderEach(render, m[k], ctx) == Ok(out[k])
    ensures RenderValues(m, render, ctx) == Ok(out)
  {
    assert forall k :: k in m ==> RenderEach(render, m[k], ctx).Ok?;
    assert RenderValues(m, render, ctx).Ok?;
    var rendered := RenderValues(m, render, ctx).value;
    assert rendered.Keys == out.Keys;
    assert forall k :: k in rendered ==> rendered[k] == out[k];
    assert rendered == out;
  }

  /** The loop both header stages run: each entry, in the map's own
   *  order, is replaced by its rendered values, and the first list that
   *  fails to render ends the loop. */
  method RenderMap(m: map<string, seq<string>>, render: Renderer, ctx: Value)
    returns (r: Result<map<string, seq<string>>, Error>)
    ensures r == RenderValues(m, render, ctx)
  {
    var pending := m.Keys;
    var out: map<string, seq<string>> := map[];
    while pending != {}
      invariant pending <= m.Keys
      invariant out.Keys == m.Keys - pending
      invariant forall k :: k in out ==> RenderEach(render, m[k], ctx) == Ok(out[k])
      decreases pending
    {
      var k :| k in pending;
      var values := RenderEach(render, m[k], ctx);
      if values.Err? {
        OneFailingListFailsAll(m, render, ctx, k);
        return Err(values.error);
      }
      out := out[k := values.value];
      pending := pending - {k};
    }
    AllListsRendered(m, render, ctx, out);
    r := Ok(out);
  }

  /** A nullable string as a template value. */
  function TextOrNull(s: Option<string>): Value
  {
    if s.Some? then Str(s.value) else Null
  }

  /** The entry `k` of an object value, if it has one. */
  function Field(v: Value, k: string): Option<Value>
  {
    if v.Object? && k in v.fields then Some(v.fields[k]) else None
  }

  /** The body handed to templates: the parsed value of a JSON text,
   *  otherwise the raw text. */
  function JsonOrRaw(read: JsonReader, text: string): (v: Value)
    ensures read(text).Some? ==> v == read(text).value
    ensures read(text).None? ==> v == Str(text)
  {
    match read(text)
    case Some(parsed) => parsed
    case None => Str(text)
  }

  function CountChar(s: string, c: char): nat
  {
    if |s| == 0 then 0 else (if s[0] == c then 1 else 0) + CountChar(s[1..], c)
  }

  /** `StringUtils.replace(s, "@", "__")` on a non-null string. */
  function ReplaceAt(s: string): string
  {
    if |s| == 0 then ""
    else (if s[0] == '@' then "__" else [s[0]]) + ReplaceAt(s[1..])
  }

  /** `replaceAtSymbol`: null stays null. */
  function ReplaceAtSymbol(s: Option<string>): (r: Option<string>)
    ensures r.None? <==> s.None?
  {
    match s
    case None => None
    case Some(t) => Some(ReplaceAt(t))
  }

  lemma {:induction false} ReplaceAtRemovesAll(s: string)
    ensures '@' !in ReplaceAt(s)
  {
    if |s| > 0 {
      ReplaceAtRemovesAll(s[1..]);
    }
  }

  lemma {:induction false} ReplaceAtIdentity(s: string)
    requires '@' !in s
    ensures ReplaceAt(s) == s
  {
    if |s| > 0 {
      assert s[0] != '@';
      assert '@' !in s[1..];
      ReplaceAtIdentity(s[1..]);
      assert s == [s[0]] + s[1..];
    }
  }

  lemma {:induction false} ReplaceAtLength(s: string)
    ensures |ReplaceAt(s)| == |s| + CountChar(s, '@')
  {
    if |s| > 0 {
      ReplaceAtLength(s[1..]);
    }
  }

  /** The output of `replaceAtSymbol` never contains '@'. */
  lemma NoAtSymbolLeft(s: string)
    ensures '@' !in ReplaceAtSymbol(Some(s)).value
  {
    ReplaceAtRemovesAll(s);
  }

  /** A string without '@' is returned unchanged. */
  lemma UnchangedWithoutAt(s: string)
    requires '@' !in s
    ensures ReplaceAtSymbol(Some(s)) == Some(s)
  {
    ReplaceAtIdentity(s);
  }

  /** Each '@' grows the string by one character. */
  lemma LengthGrowsByAtCount(s: string)
    ensures |ReplaceAtSymbol(Some(s)).value| == |s| + CountChar(s, '@')
  {
    ReplaceAtLength(s);
  }

  /** Each character is replaced on its own and in place: '@' becomes
   *  "__", any other character stays, and the replacement of a
   *  concatenation is the concatenation of the replacements. */
  lemma {:induction false} ReplaceAtInPlace(a: string, b: string, c: char)
    ensures ReplaceAtSymbol(Some("@")) == Some("__")
    ensures c != '@' ==> ReplaceAtSymbol(Some([c])) == Some([c])
    ensures ReplaceAtSymbol(Some(a + b)) == Some(ReplaceAtSymbol(Some(a)).value + ReplaceAtSymbol(Some(b)).value)
  {
    assert "@"[1..] == "" && [c][1..] == "";
    assert ReplaceAt("@") == "__" + ReplaceAt("");
    assert ReplaceAt([c]) == (if c == '@' then "__" else [c]) + ReplaceAt("");
    assert ReplaceAt("") == "";
    assert "__" + "" == "__" && [c] + "" == [c];
    ReplaceAtAppend(a, b);
  }

  lemma {:induction false} ReplaceAtAppend(a: string, b: string)
    ensures ReplaceAt(a + b) == ReplaceAt(a) + ReplaceAt(b)
  {
    if |a| > 0 {
      assert (a + b)[0] == a[0];
      assert (a + b)[1..] == a[1..] + b;
      ReplaceAtAppend(a[1..], b);
    } else {
      assert a + b == b;
    }
  }

  /** Replacing twice is replacing once. */
  lemma ReplaceAtSymbolIdempotent(s: Option<string>)
    ensures ReplaceAtSymbol(ReplaceAtSymbol(s)) == ReplaceAtSymbol(s)
  {
    if s.Some? {
      ReplaceAtRemovesAll(s.value);
      ReplaceAtIdentity(ReplaceAt(s.value));
    }
  }
}
