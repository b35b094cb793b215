// internal/color: ANSI escape sequences written into a string builder,
// only when colouring is enabled.
module Colors {
  import opened Text
  import opened Util
  import opened StringBuilder

  const Esc: char := '\U{1B}'

  /** A select-graphic-rendition sequence: ESC '[' parameters 'm'. */
  function SGR(params: string): string
  {
    [Esc, '['] + params + "m"
  }

  const CodeReset: string := SGR("0")
  const CodeBold: string := SGR("1")
  const CodeFaint: string := SGR("2")
  const CodeBrightRed: string := SGR("91")
  const CodeBrightGreen: string := SGR("92")
  const CodeBrightCyan: string := SGR("96")

  predicate CodeByte(c: char)
  {
    IsDigit(c) || c == ';'
  }

  predicate CodeBody(s: string)
  {
    forall i :: 0 <= i < |s| ==> CodeByte(s[i])
  }

  ghost predicate IsCode(c: string)
  {
    exists params :: CodeBody(params) && c == SGR(params)
  }

  ghost predicate AllCodes(cs: seq<string>)
  {
    forall i :: 0 <= i < |cs| ==> IsCode(cs[i])
  }

  /** What `ColoredText(text, codes...)` adds to the builder. */
  function Painted(enabled: bool, text: string, codes: seq<string>): string
  {
    if enabled then Concat(codes) + text + CodeReset else text
  }

  // ---- removing escape sequences ----------------------------------------

  /** The rest of `s` after its first 'm' (empty when there is none). */
  function AfterM(s: string): (r: string)
    ensures |r| < |s| || s == []
  {
    if |s| == 0 then [] else if s[0] == 'm' then s[1..] else AfterM(s[1..])
  }

  /** `s` with every escape sequence cut out: what a terminal shows as text. */
  function StripAnsi(s: string): (r: string)
    decreases |s|
  {
    if |s| == 0 then []
    else if s[0] == Esc then StripAnsi(AfterM(s[1..]))
    else [s[0]] + StripAnsi(s[1..])
  }

  lemma {:induction false} AfterMSkipsParams(mid: string, rest: string)
    requires 'm' !in mid
    ensures AfterM(mid + "m" + rest) == rest
  {
    if |mid| == 0 {
      assert mid + "m" + rest == ['m'] + rest;
    } else {
      assert (mid + "m" + rest)[0] == mid[0];
      assert (mid + "m" + rest)[1..] == mid[1..] + "m" + rest;
      AfterMSkipsParams(mid[1..], rest);
    }
  }

  lemma StripCode(c: string, rest: string)
    requires IsCode(c)
    ensures StripAnsi(c + rest) == StripAnsi(rest)
  {
    var params :| CodeBody(params) && c == SGR(params);
    var mid := ['['] + params;
    assert 'm' !in mid by {
      forall i | 0 <= i < |mid|
        ensures mid[i] != 'm'
      {
        if i > 0 {
          assert mid[i] == params[i - 1];
        }
      }
    }
    assert (c + rest)[0] == Esc;
    assert (c + rest)[1..] == mid + "m" + rest;
    AfterMSkipsParams(mid, rest);
  }

  lemma {:induction false} StripCodes(cs: seq<string>, rest: string)
    requires AllCodes(cs)
    ensures StripAnsi(Concat(cs) + rest) == StripAnsi(rest)
    decreases |cs|
  {
    if |cs| > 0 {
      var init, last := cs[..|cs| - 1], cs[|cs| - 1];
      assert Concat(cs) == Concat(init) + last;
      assert Concat(cs) + rest == Concat(init) + (last + rest);
      assert AllCodes(init) by {
        forall i | 0 <= i < |init|
          ensures IsCode(init[i])
        {
          assert init[i] == cs[i];
        }
      }
      assert IsCode(last);
      StripCodes(init, last + rest);
      StripCode(last, rest);
      calc {
        StripAnsi(Concat(cs) + rest);
        StripAnsi(Concat(init) + (last + rest));
        StripAnsi(last + rest);
        StripAnsi(rest);
      }
    } else {
      assert Concat(cs) + rest == rest;
    }
  }

  lemma {:induction false} StripPlain(text: string, rest: string)
    requires Esc !in text
    ensures StripAnsi(text + rest) == text + StripAnsi(rest)
    decreases |text|
  {
    if |text| > 0 {
      assert text[0] in text;
      assert (text + rest)[0] == text[0];
      assert (text + rest)[1..] == text[1..] + rest;
      assert Esc !in text[1..] by {
        forall i | 0 <= i < |text| - 1
          ensures text[1..][i] != Esc
        {
          assert text[1..][i] == text[i + 1];
          assert text[i + 1] in text;
        }
      }
      StripPlain(text[1..], rest);
      calc {
        StripAnsi(text + rest);
        [text[0]] + StripAnsi(text[1..] + rest);
        [text[0]] + (text[1..] + StripAnsi(rest));
        { assert text == [text[0]] + text[1..]; }
        text + StripAnsi(rest);
      }
    } else {
      assert text + rest == rest;
    }
  }

  /** With the escapes removed, coloured text reads as the uncoloured text. */
  lemma PaintedReadsAsText(enabled: bool, text: string, codes: seq<string>, rest: string)
    requires AllCodes(codes) && Esc !in text
    ensures StripAnsi(Painted(enabled, text, codes) + rest) == text + StripAnsi(rest)
  {
    if enabled {
      assert Painted(enabled, text, codes) + rest == Concat(codes) + (text + (CodeReset + rest));
      StripCodes(codes, text + (CodeReset + rest));
      StripPlain(text, CodeReset + rest);
      NamedCodes();
      StripCode(CodeReset, rest);
    } else {
      StripPlain(text, rest);
    }
  }

  /** `a` shows on a terminal as `plain`, whatever text follows it. */
  ghost predicate ReadsAs(a: string, plain: string)
  {
    forall rest :: StripAnsi(a + rest) == plain + StripAnsi(rest)
  }

  lemma ReadsAsPlain(text: string)
    requires Esc !in text
    ensures ReadsAs(text, text)
  {
    forall rest {
      StripPlain(text, rest);
    }
  }

  lemma ReadsAsCode(c: string)
    requires IsCode(c)
    ensures ReadsAs(c, "")
  {
    forall rest {
      StripCode(c, rest);
    }
  }

  lemma ReadsAsPainted(enabled: bool, text: string, codes: seq<string>)
    requires AllCodes(codes) && Esc !in text
    ensures ReadsAs(Painted(enabled, text, codes), text)
  {
    forall rest {
      PaintedReadsAsText(enabled, text, codes, rest);
    }
  }

  /** Reading is compositional: what two texts show, one after the other. */
  lemma ReadsAsAppend(a: string, pa: string, b: string, pb: string)
    requires ReadsAs(a, pa) && ReadsAs(b, pb)
    ensures ReadsAs(a + b, pa + pb)
  {
    forall rest
      ensures StripAnsi(a + b + rest) == pa + pb + StripAnsi(rest)
    {
      AppendAssoc(a, b, rest);
      AppendAssoc(pa, pb, StripAnsi(rest));
      assert StripAnsi(a + (b + rest)) == pa + StripAnsi(b + rest);
    }
  }

  lemma ReadsAs3(a: string, pa: string, b: string, pb: string, c: string, pc: string)
    requires ReadsAs(a, pa) && ReadsAs(b, pb) && ReadsAs(c, pc)
    ensures ReadsAs(a + b + c, pa + pb + pc)
  {
    ReadsAsAppend(a, pa, b, pb);
    ReadsAsAppend(a + b, pa + pb, c, pc);
  }

  lemma ReadsAs5(a: string, pa: string, b: string, pb: string, c: string, pc: string,
                 d: string, pd: string, e: string, pe: string)
    requires ReadsAs(a, pa) && ReadsAs(b, pb) && ReadsAs(c, pc) && ReadsAs(d, pd) && ReadsAs(e, pe)
    ensures ReadsAs(a + b + c + d + e, pa + pb + pc + pd + pe)
  {
    ReadsAs3(a, pa, b, pb, c, pc);
    ReadsAsAppend(a + b + c, pa + pb + pc, d, pd);
    ReadsAsAppend(a + b + c + d, pa + pb + pc + pd, e, pe);
  }

  lemma {:induction false} ReadsAsConcat(parts: seq<string>, plains: seq<string>)
    requires |parts| == |plains|
    requires forall i :: 0 <= i < |parts| ==> ReadsAs(parts[i], plains[i])
    ensures ReadsAs(Concat(parts), Concat(plains))
    decreases |parts|
  {
    if |parts| == 0 {
      ReadsAsPlain("");
    } else {
      var n := |parts| - 1;
      ReadsAsConcat(parts[..n], plains[..n]);
      ReadsAsAppend(Concat(parts[..n]), Concat(plains[..n]), parts[n], plains[n]);
    }
  }

  /** With every escape sequence removed, a text that reads as `plain` is `plain`. */
  lemma Shows(a: string, plain: string)
    requires ReadsAs(a, plain)
    ensures StripAnsi(a) == plain
  {
    assert a + "" == a && plain + "" == plain;
    assert StripAnsi(a + "") == plain + StripAnsi("");
  }

  lemma ReadsAsDecimal(n: int)
    ensures Esc !in Decimal(n)
    ensures ReadsAs(Decimal(n), Decimal(n))
  {
    var m: nat := if n < 0 then -n else n;
    DigitsOnly(m);
    assert Esc !in DecDigits(m);
    ReadsAsPlain(Decimal(n));
  }

  lemma {:induction false} ExpandTabsKeepsEscapesOut(s: string)
    requires Esc !in s
    ensures Esc !in ExpandTabs(s)
  {
    if |s| > 0 {
      assert s[0] in s;
      assert Esc !in s[1..] by {
        forall i | 0 <= i < |s| - 1
          ensures s[1..][i] != Esc
        {
          assert s[1..][i] == s[i + 1];
          assert s[i + 1] in s;
        }
      }
      ExpandTabsKeepsEscapesOut(s[1..]);
    }
  }

  lemma NamedCodes()
    ensures IsCode(CodeReset) && IsCode(CodeBold) && IsCode(CodeFaint)
    ensures IsCode(CodeBrightRed) && IsCode(CodeBrightGreen) && IsCode(CodeBrightCyan)
  {
    assert CodeBody("0") && CodeBody("1") && CodeBody("2");
    assert CodeBody("91") && CodeBody("92") && CodeBody("96");
  }

  // ---- RGB ----------------------------------------------------------------

  /** `max(min(x, 255), 0)`. */
  function Clamp(x: int): (r: int)
    ensures 0 <= r <= 255
    ensures 0 <= x <= 255 ==> r == x
    ensures x < 0 ==> r == 0
    ensures x > 255 ==> r == 255
  {
    if x > 255 then 255 else if x < 0 then 0 else x
  }

  /** The parameters of a 24-bit colour: `layer;2;r;g;b` with clamped components. */
  function RGBParams(layer: string, r: int, g: int, b: int): string
  {
    layer + ";2;" + Components(Clamp(r), Clamp(g), Clamp(b))
  }

  function Components(r: int, g: int, b: int): string
  {
    Decimal(r) + ";" + Decimal(g) + ";" + Decimal(b)
  }

  lemma SgrAssoc(start: string, p: string, q: string)
    ensures start + ([Esc, '['] + p) + q + "m" == start + SGR(p + q)
  {
  }

  lemma CodeBodyAppend(a: string, b: string)
    requires CodeBody(a) && CodeBody(b)
    ensures CodeBody(a + b)
  {
    forall i | 0 <= i < |a + b|
      ensures CodeByte((a + b)[i])
    {
      if i < |a| {
        assert (a + b)[i] == a[i];
      } else {
        assert (a + b)[i] == b[i - |a|];
      }
    }
  }

  lemma DecimalIsCodeBody(n: nat)
    ensures CodeBody(Decimal(n))
  {
    DigitsOnly(n);
  }

  lemma ComponentsAreCodeBody(r: nat, g: nat, b: nat)
    ensures CodeBody(Components(r, g, b))
  {
    DecimalIsCodeBody(r);
    DecimalIsCodeBody(g);
    DecimalIsCodeBody(b);
    assert CodeBody(";");
    CodeBodyAppend(Decimal(r), ";");
    CodeBodyAppend(Decimal(r) + ";", Decimal(g));
    CodeBodyAppend(Decimal(r) + ";" + Decimal(g), ";");
    CodeBodyAppend(Decimal(r) + ";" + Decimal(g) + ";", Decimal(b));
  }

  /** The sequence `ColorRGB` ("38") or `BGColorRGB` ("48") writes is a well-formed code. */
  lemma {:induction false} RGBCodeIsCode(layer: string, r: int, g: int, b: int)
    requires CodeBody(layer)
    ensures IsCode(SGR(RGBParams(layer, r, g, b)))
  {
    var params := RGBParams(layer, r, g, b);
    ComponentsAreCodeBody(Clamp(r), Clamp(g), Clamp(b));
    assert CodeBody(";2;");
    CodeBodyAppend(layer, ";2;");
    CodeBodyAppend(layer + ";2;", Components(Clamp(r), Clamp(g), Clamp(b)));
    assert CodeBody(params);
  }

  class Colorer {
    const builder: StringBuilder
    const enabled: bool

    constructor (builder: StringBuilder, enabled: bool)
      ensures this.builder == builder && this.enabled == enabled
    {
      this.builder := builder;
      this.enabled := enabled;
    }

    method Reset()
      requires builder.Valid()
      modifies builder
      ensures builder.Valid()
      ensures builder.buf == old(builder.buf) + (if enabled then CodeReset else "")
    {
      if enabled {
        var _ := builder.WriteString(CodeReset);
      }
    }

    method Color(codes: seq<string>)
      requires builder.Valid()
      modifies builder
      ensures builder.Valid()
      ensures builder.buf == old(builder.buf) + (if enabled then Concat(codes) else "")
    {
      if enabled {
        for i := 0 to |codes|
          invariant builder.Valid()
          invariant builder.buf == old(builder.buf) + Concat(codes[..i])
        {
          assert codes[..i + 1][..i] == codes[..i];
          var _ := builder.WriteString(codes[i]);
        }
        assert codes[..|codes|] == codes;
      }
    }

    method ColorRGB(r: int, g: int, b: int)
      requires builder.Valid()
      modifies builder
      ensures builder.Valid()
      ensures builder.buf == old(builder.buf) + (if enabled then SGR(RGBParams("38", r, g, b)) else "")
    {
      WriteRGB("38", r, g, b);
    }

    method BGColorRGB(r: int, g: int, b: int)
      requires builder.Valid()
      modifies builder
      ensures builder.Valid()
      ensures builder.buf == old(builder.buf) + (if enabled then SGR(RGBParams("48", r, g, b)) else "")
    {
      WriteRGB("48", r, g, b);
    }

    method WriteRGB(layer: string, r: int, g: int, b: int)
      requires builder.Valid()
      modifies builder
      ensures builder.Valid()
      ensures builder.buf == old(builder.buf) + (if enabled then SGR(RGBParams(layer, r, g, b)) else "")
    {
      if enabled {
        var r', g', b' := Clamp(r), Clamp(g), Clamp(b);
        ghost var start := builder.buf;
        var _ := builder.WriteString([Esc, '['] + (layer + ";2;"));
        WriteComponents(r', g', b');
        builder.WriteByte('m');
        SgrAssoc(start, layer + ";2;", Components(r', g', b'));
      }
    }

    /** The three components, `;`-separated, as `ColorRGB` writes them. */
    method WriteComponents(r: Int64, g: Int64, b: Int64)
      requires builder.Valid()
      modifies builder
      ensures builder.Valid()
      ensures builder.buf == old(builder.buf) + Components(r, g, b)
    {
      ghost var s := builder.buf;
      ghost var dr, dg, db := Decimal(r), Decimal(g), Decimal(b);
      builder.WriteInt(r);
      builder.WriteByte(';');
      builder.WriteInt(g);
      builder.WriteByte(';');
      builder.WriteInt(b);
      Regroup5(s, dr, ";", dg, ";", db);
    }

    method ColoredText(text: string, codes: seq<string>)
      requires builder.Valid()
      modifies builder
      ensures builder.Valid()
      ensures builder.buf == old(builder.buf) + Painted(enabled, text, codes)
    {
      if !enabled {
        var _ := builder.WriteString(text);
        return;
      }
      ghost var s := builder.buf;
      Color(codes);
      var _ := builder.WriteString(text);
      Reset();
      Regroup3(s, Concat(codes), text, CodeReset);
    }

    method ColoredInt(value: Int64, codes: seq<string>)
      requires builder.Valid()
      modifies builder
      ensures builder.Valid()
      ensures builder.buf == old(builder.buf) + Painted(enabled, Decimal(value), codes)
    {
      ghost var d := Decimal(value);
      if !enabled {
        builder.WriteInt(value);
        return;
      }
      ghost var s := builder.buf;
      Color(codes);
      builder.WriteInt(value);
      Reset();
      Regroup3(s, Concat(codes), d, CodeReset);
    }
  }
}
