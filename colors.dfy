/**
 * Colour handling of the service payloads (`COLOR_NAMES`, `_normalize_hex_color`,
 * `_hex_with_alpha` in `__init__.py`): a colour is a name from a fixed table or a
 * hex string with or without `#`; a background colour additionally gets an alpha
 * byte in front of its six RGB digits.
 */
module Colors {
  import opened Wrappers
  import opened PyStr

  /** The 27 colour names the services accept, lower case, with their hex value, in the
      order of the `COLOR_NAMES` dictionary. */
  const ColorTable: seq<(string, string)> := [
    ("red", "#FF0000"),
    ("green", "#00FF00"),
    ("blue", "#0000FF"),
    ("white", "#FFFFFF"),
    ("black", "#000000"),
    ("yellow", "#FFFF00"),
    ("orange", "#FFA500"),
    ("purple", "#800080"),
    ("pink", "#FFC0CB"),
    ("cyan", "#00FFFF"),
    ("magenta", "#FF00FF"),
    ("gray", "#808080"),
    ("grey", "#808080"),
    ("brown", "#A52A2A"),
    ("lime", "#00FF00"),
    ("navy", "#000080"),
    ("teal", "#008080"),
    ("maroon", "#800000"),
    ("olive", "#808000"),
    ("silver", "#C0C0C0"),
    ("aqua", "#00FFFF"),
    ("gold", "#FFD700"),
    ("coral", "#FF7F50"),
    ("salmon", "#FA8072"),
    ("violet", "#EE82EE"),
    ("indigo", "#4B0082"),
    ("turquoise", "#40E0D0")
  ]

  /** A table value is a `#` followed by six upper-case hex digits. */
  predicate IsRgbHex(s: string) {
    |s| == 7 && s[0] == '#' && forall i :: 1 <= i < 7 ==> IsHexDigitChar(s[i])
  }

  /** A colour name: one or more lower-case ASCII letters. */
  predicate IsColorName(s: string) {
    |s| > 0 && forall i :: 0 <= i < |s| ==> IsLowerChar(s[i])
  }

  /** Every entry of a table maps a colour name to an RGB value. */
  predicate TableOk(table: seq<(string, string)>) {
    forall i :: 0 <= i < |table| ==> IsColorName(table[i].0) && IsRgbHex(table[i].1)
  }

  /** The value of the first entry named `name`, as a dictionary lookup finds it. */
  function LookupIn(table: seq<(string, string)>, name: string): Option<string>
  {
    if |table| == 0 then None
    else if table[0].0 == name then Some(table[0].1)
    else LookupIn(table[1..], name)
  }

  /** In a well-formed table, only a colour name has a value, and that value is an RGB
      hex string. */
  lemma {:induction false} LookupInValues(table: seq<(string, string)>, name: string)
    requires TableOk(table)
    ensures var r := LookupIn(table, name);
            r.Some? ==> IsColorName(name) && IsRgbHex(r.value)
  {
    if |table| > 0 && table[0].0 != name {
      LookupInValues(table[1..], name);
    }
  }

  /** A name has a value exactly when some entry of the table carries it, and that value
      is the one the entry pairs with the name. */
  lemma {:induction false} LookupInListed(table: seq<(string, string)>, name: string)
    ensures LookupIn(table, name).Some? <==> exists i :: 0 <= i < |table| && table[i].0 == name
    ensures LookupIn(table, name).Some? ==>
              exists i :: 0 <= i < |table| && table[i] == (name, LookupIn(table, name).value)
  {
    if |table| > 0 && table[0].0 != name {
      LookupInListed(table[1..], name);
      assert forall i :: 1 <= i < |table| ==> table[1..][i - 1] == table[i];
    }
  }

  /** No name occurs twice, as in a dictionary. */
  predicate NamesDistinct(table: seq<(string, string)>) {
    forall i, j :: 0 <= i < j < |table| ==> table[i].0 != table[j].0
  }

  /** In a table without repeated names, every entry's name finds that entry's value. */
  lemma {:induction false} LookupInFinds(table: seq<(string, string)>, i: nat)
    requires NamesDistinct(table) && i < |table|
    ensures LookupIn(table, table[i].0) == Some(table[i].1)
  {
    if i > 0 {
      assert table[0].0 != table[i].0;
      var rest := table[1..];
      assert NamesDistinct(rest) by {
        forall a, b | 0 <= a < b < |rest| ensures rest[a].0 != rest[b].0 {
          assert rest[a] == table[a + 1] && rest[b] == table[b + 1];
        }
      }
      LookupInFinds(rest, i - 1);
      assert rest[i - 1] == table[i];
    }
  }

  lemma ColorTableOk()
    ensures TableOk(ColorTable)
  {
    forall i | 0 <= i < |ColorTable|
      ensures IsColorName(ColorTable[i].0) && IsRgbHex(ColorTable[i].1)
    {
      if i < 9 {
        FirstRowsOk(i);
      } else if i < 18 {
        MiddleRowsOk(i);
      } else {
        LastRowsOk(i);
      }
    }
  }

  lemma FirstRowsOk(i: nat)
    requires i < 9
    ensures IsColorName(ColorTable[i].0) && IsRgbHex(ColorTable[i].1)
  {
  }

  lemma MiddleRowsOk(i: nat)
    requires 9 <= i < 18
    ensures IsColorName(ColorTable[i].0) && IsRgbHex(ColorTable[i].1)
  {
  }

  lemma LastRowsOk(i: nat)
    requires 18 <= i < 27
    ensures IsColorName(ColorTable[i].0) && IsRgbHex(ColorTable[i].1)
  {
  }

  /** `COLOR_NAMES.get(name)`. */
  function LookupColorName(name: string): Option<string>
  {
    LookupIn(ColorTable, name)
  }

  /** Only a colour name has a value, and that value is an RGB hex string. */
  lemma LookupColorNameValues(name: string)
    ensures var r := LookupColorName(name);
            r.Some? ==> IsColorName(name) && IsRgbHex(r.value)
  {
    ColorTableOk();
    LookupInValues(ColorTable, name);
  }

  /** The 27 names of `COLOR_NAMES` are distinct. */
  lemma ColorNamesDistinct()
    ensures NamesDistinct(ColorTable)
  {
    forall i, j | 0 <= i < j < |ColorTable| ensures ColorTable[i].0 != ColorTable[j].0 {
      NameDistinctFromLater(i, j);
    }
  }

  lemma NameDistinctFromLater(i: nat, j: nat)
    requires i < j < |ColorTable|
    ensures ColorTable[i].0 != ColorTable[j].0
  {
    var a, b := ColorTable[i].0, ColorTable[j].0;
    if |a| == |b| {
      assert a[0] != b[0] || a[1] != b[1] || a[2] != b[2];
    }
  }

  /** `COLOR_NAMES[name]`: a name has the value `v` exactly when `COLOR_NAMES` pairs it
      with `v`. */
  lemma LookupColorNameListed(name: string, v: string)
    ensures LookupColorName(name) == Some(v) <==> exists i :: 0 <= i < |ColorTable| && ColorTable[i] == (name, v)
  {
    LookupInListed(ColorTable, name);
    if exists i :: 0 <= i < |ColorTable| && ColorTable[i] == (name, v) {
      var i :| 0 <= i < |ColorTable| && ColorTable[i] == (name, v);
      LookupColorNameFinds(i);
    }
  }

  /** Every entry of `COLOR_NAMES` is found with its own value. */
  lemma LookupColorNameFinds(i: nat)
    requires i < |ColorTable|
    ensures LookupColorName(ColorTable[i].0) == Some(ColorTable[i].1)
  {
    ColorNamesDistinct();
    LookupInFinds(ColorTable, i);
  }

  /** The shape of every colour the normaliser produces: a leading `#`, no lower-case
      letter and no trailing whitespace. */
  predicate NormalForm(s: string) {
    |s| > 0 && s[0] == '#' && !IsSpace(s[|s| - 1]) && NoLower(s)
  }

  /** `_normalize_hex_color`: `None` for an absent or empty colour; the table value for a
      colour name (after trimming and lower-casing); otherwise the trimmed text with a `#`
      in front (unless it has one) in upper case. Hex digits are not validated. */
  function NormalizeHexColor(color: Option<string>): (r: Option<string>)
    ensures r.None? <==> color.None? || color.value == []
  {
    if color.None? || color.value == [] then None
    else
      var c := Lower(Strip(color.value));
      match LookupColorName(c)
      case Some(hex) => Some(hex)
      case None => Some(Upper(if |c| > 0 && c[0] == '#' then c else "#" + c))
  }

  /** Whatever it is given, the normaliser returns a colour in normal form. */
  lemma NormalizeGivesNormalForm(color: Option<string>)
    ensures NormalizeHexColor(color).Some? ==> NormalForm(NormalizeHexColor(color).value)
  {
    if color.Some? && color.value != [] {
      var stripped := Strip(color.value);
      var c := Lower(stripped);
      if LookupColorName(c).None? {
        StripSpec(color.value);
        assert c == [] || !IsSpace(c[|c| - 1]) by {
          if c != [] { assert c[|c| - 1] == LowerChar(stripped[|stripped| - 1]); }
        }
        HashedIsNormal(c);
      } else {
        NameValueIsNormal(c);
      }
    }
  }

  /** A table value is in normal form. */
  lemma NameValueIsNormal(name: string)
    requires LookupColorName(name).Some?
    ensures NormalForm(LookupColorName(name).value)
  {
    LookupColorNameValues(name);
    var v := LookupColorName(name).value;
    forall i | 0 <= i < |v| ensures !IsLowerChar(v[i]) {
      if i > 0 { assert IsHexDigitChar(v[i]); }
    }
    assert IsHexDigitChar(v[6]);
  }

  /** A colour name, in any case and with whitespace around it, gives the value
      `COLOR_NAMES` pairs with it. */
  lemma NormalizeColorName(color: string, i: nat)
    requires i < |ColorTable| && Lower(Strip(color)) == ColorTable[i].0
    ensures color != []
    ensures NormalizeHexColor(Some(color)) == Some(ColorTable[i].1)
  {
    LookupColorNameFinds(i);
    LookupColorNameValues(Lower(Strip(color)));
  }

  /** Upper-casing a text that starts with `#` (one is added when missing) and does not
      end in whitespace gives a normalised colour. */
  lemma HashedIsNormal(c: string)
    requires c == [] || !IsSpace(c[|c| - 1])
    ensures NormalForm(Upper(if |c| > 0 && c[0] == '#' then c else "#" + c))
  {
    var hashed := if |c| > 0 && c[0] == '#' then c else "#" + c;
    var u := Upper(hashed);
    assert hashed[0] == '#';
    assert u[0] == '#';
    assert hashed[|hashed| - 1] == (if c == [] then '#' else c[|c| - 1]);
    assert u[|u| - 1] == UpperChar(hashed[|hashed| - 1]);
  }

  /** Normalising a normalised colour changes nothing. */
  lemma NormalizeIdempotent(color: Option<string>)
    ensures NormalizeHexColor(NormalizeHexColor(color)) == NormalizeHexColor(color)
  {
    if NormalizeHexColor(color).Some? {
      NormalizeGivesNormalForm(color);
      NormalFormIsFixed(NormalizeHexColor(color).value);
    }
  }

  /** Every string in normal form is its own normalisation. */
  lemma NormalFormIsFixed(s: string)
    requires NormalForm(s)
    ensures NormalizeHexColor(Some(s)) == Some(s)
  {
    StripOfTrimmed(s);
    var c := Lower(s);
    assert c[0] == '#' && !IsLowerChar(c[0]);
    LookupColorNameValues(c);
    UpperLowerOfNoLower(s);
  }

  /** Text that is not a colour name is normalised to `#` plus its upper-case form, and
      a `#` already in front changes nothing. */
  lemma HashPrefixIrrelevant(t: string)
    requires |t| > 0 && t[0] != '#' && !IsSpace(t[0]) && !IsSpace(t[|t| - 1])
    requires LookupColorName(Lower(t)).None?
    ensures NormalizeHexColor(Some(t)) == Some("#" + Upper(t))
    ensures NormalizeHexColor(Some("#" + t)) == Some("#" + Upper(t))
  {
    NonNameGetsHash(t);
    HashedGetsUpper(t);
  }

  lemma HashedGetsUpper(t: string)
    requires |t| > 0 && !IsSpace(t[|t| - 1])
    ensures NormalizeHexColor(Some("#" + t)) == Some("#" + Upper(t))
  {
    var sp := "#" + t;
    assert sp[|sp| - 1] == t[|t| - 1];
    StripOfTrimmed(sp);
    assert Lower(sp) == "#" + Lower(t);
    HashedNonName(sp);
    UpperHashPrefix(Lower(t));
    UpperOfLower(t);
  }

  lemma NonNameGetsHash(t: string)
    requires |t| > 0 && t[0] != '#' && !IsSpace(t[0]) && !IsSpace(t[|t| - 1])
    requires LookupColorName(Lower(t)).None?
    ensures NormalizeHexColor(Some(t)) == Some("#" + Upper(t))
  {
    StripOfTrimmed(t);
    var c := Lower(t);
    assert |c| > 0 && c[0] == LowerChar(t[0]) && c[0] != '#';
    NormalizeUnnamed(t, c);
    UpperHashPrefix(c);
    UpperOfLower(t);
  }

  /** One step of the normaliser for text whose trimmed lower-case form `c` is no colour
      name. */
  lemma NormalizeUnnamed(s: string, c: string)
    requires s != [] && c == Lower(Strip(s)) && LookupColorName(c).None?
    ensures NormalizeHexColor(Some(s)) == Some(Upper(if |c| > 0 && c[0] == '#' then c else "#" + c))
  {
  }

  lemma UpperHashPrefix(x: string)
    ensures Upper("#" + x) == "#" + Upper(x)
  {
    var a, b := Upper("#" + x), "#" + Upper(x);
    forall i | 0 <= i < |a| ensures a[i] == b[i] {
      if i > 0 { assert ("#" + x)[i] == x[i - 1]; }
    }
  }

  lemma HashedNonName(sp: string)
    requires |sp| > 0 && sp[0] == '#' && Strip(sp) == sp
    ensures NormalizeHexColor(Some(sp)) == Some(Upper(Lower(sp)))
  {
    assert Lower(sp)[0] == '#';
    LookupColorNameValues(Lower(sp));
  }

  /** A colour that is nothing but whitespace becomes the bare `"#"`. */
  lemma BlankColorIsHashOnly(s: string)
    requires |s| > 0 && forall i :: 0 <= i < |s| ==> IsSpace(s[i])
    ensures NormalizeHexColor(Some(s)) == Some("#")
  {
    var c := Lower(Strip(s));
    BlankStrips(s);
    LookupColorNameValues(c);
    HashOnlyUpper(c);
  }

  lemma HashOnlyUpper(c: string)
    requires c == []
    ensures Upper("#" + c) == "#"
  {
    assert "#" + c == "#";
  }

  lemma BlankStrips(s: string)
    requires forall i :: 0 <= i < |s| ==> IsSpace(s[i])
    ensures Lower(Strip(s)) == []
  {
    assert TrimStart(s) == [];
  }

  /** Opacity as the schema admits it: absent, or a percentage 0..100. */
  predicate OpacityInRange(opacity: Option<int>) {
    opacity.Some? ==> 0 <= opacity.value <= 100
  }

  /** The alpha byte for an opacity percentage, 40 when absent:
      `int(opacity * 255 / 100)`, which for an integer 0..100 is the integer quotient. */
  function Alpha(opacity: Option<int>): (a: nat)
    requires OpacityInRange(opacity)
    ensures a <= 255
    ensures opacity.None? ==> a == 102
    ensures opacity == Some(0) ==> a == 0
    ensures opacity == Some(100) ==> a == 255
  {
    opacity.GetOr(40) * 255 / 100
  }

  /** A larger opacity never gives a smaller alpha. */
  lemma AlphaMonotonic(p: int, q: int)
    requires 0 <= p <= q <= 100
    ensures Alpha(Some(p)) <= Alpha(Some(q))
  {
    assert p * 255 <= q * 255;
  }

  /** `_hex_with_alpha`: `None` for an absent or empty colour, otherwise the normalised
      colour with the alpha byte added by `AddAlpha`. */
  function HexWithAlpha(color: Option<string>, opacity: Option<int>): (r: Option<string>)
    requires OpacityInRange(opacity)
    ensures r.None? <==> color.None? || color.value == []
    ensures r.Some? ==> r.value == AddAlpha(NormalizeHexColor(color).value, opacity)
  {
    if color.None? || color.value == [] then None
    else
      match NormalizeHexColor(color)
      case None => None
      case Some(c) => Some(AddAlpha(c, opacity))
  }

  /** The second half of `_hex_with_alpha`: when the colour without its leading `#`s has
      six characters, `#` + two hex digits of the alpha byte + those six characters;
      otherwise the colour itself. */
  function AddAlpha(c: string, opacity: Option<int>): string
    requires OpacityInRange(opacity)
  {
    var rgb := LStripChar(c, '#');
    if |rgb| == 6 then "#" + Hex2(Alpha(opacity)) + rgb else c
  }

  /** The alpha byte written in an `#AARRGGBB` string. */
  function AlphaOf(argb: string): nat
    requires |argb| == 9 && IsHexDigitChar(argb[1]) && IsHexDigitChar(argb[2])
  {
    HexDigitValue(argb[1]) * 16 + HexDigitValue(argb[2])
  }

  /** What `_hex_with_alpha` promises for a colour whose RGB part has six characters:
      `#AARRGGBB`, whose alpha byte reads back as `Alpha(opacity)`, whose last six
      characters are the colour's RGB part, and which is itself a normalised colour. */
  lemma AddAlphaSixDigits(c: string, opacity: Option<int>)
    requires OpacityInRange(opacity) && NormalForm(c)
    requires |LStripChar(c, '#')| == 6
    ensures var r := AddAlpha(c, opacity);
            && |r| == 9 && r[0] == '#' && IsHexDigitChar(r[1]) && IsHexDigitChar(r[2])
            && AlphaOf(r) == Alpha(opacity)
            && r[3..] == LStripChar(c, '#')
            && NormalForm(r)
  {
    var rgb := LStripChar(c, '#');
    var prefix := "#" + Hex2(Alpha(opacity));
    AddAlphaLayout(c, opacity);
    RgbPartNoLower(c);
    AlphaPrefixNoLower(Alpha(opacity));
    NoLowerConcat(prefix, rgb);
  }

  lemma AddAlphaLayout(c: string, opacity: Option<int>)
    requires OpacityInRange(opacity) && NormalForm(c)
    requires |LStripChar(c, '#')| == 6
    ensures var r := AddAlpha(c, opacity);
            && r == ("#" + Hex2(Alpha(opacity))) + LStripChar(c, '#')
            && |r| == 9 && r[0] == '#' && r[1..3] == Hex2(Alpha(opacity))
            && r[3..] == LStripChar(c, '#') && r[8] == c[|c| - 1]
  {
  }

  lemma RgbPartNoLower(c: string)
    requires NormalForm(c)
    ensures NoLower(LStripChar(c, '#'))
  {
    NoLowerSuffix(c, |c| - |LStripChar(c, '#')|);
  }

  lemma AlphaPrefixNoLower(n: nat)
    requires n < 256
    ensures NoLower("#" + Hex2(n))
  {
    var hx := Hex2(n);
    assert !IsLowerChar(hx[0]) && !IsLowerChar(hx[1]);
  }

  /** Any other colour comes back unchanged. */
  lemma AddAlphaOtherLengths(c: string, opacity: Option<int>)
    requires OpacityInRange(opacity)
    requires |LStripChar(c, '#')| != 6
    ensures AddAlpha(c, opacity) == c
  {
  }

  /** Whatever its length, the colour `_hex_with_alpha` returns is a normalised colour,
      so normalising it again changes nothing. */
  lemma HexWithAlphaIsNormal(color: Option<string>, opacity: Option<int>)
    requires OpacityInRange(opacity)
    requires color.Some? && color.value != []
    ensures NormalForm(HexWithAlpha(color, opacity).value)
    ensures NormalizeHexColor(HexWithAlpha(color, opacity)) == HexWithAlpha(color, opacity)
  {
    var c := NormalizeHexColor(color).value;
    NormalizeGivesNormalForm(color);
    if |LStripChar(c, '#')| == 6 {
      AddAlphaSixDigits(c, opacity);
    }
    NormalFormIsFixed(HexWithAlpha(color, opacity).value);
  }
}

/** Worked examples of the colour rules, on concrete inputs. Each step is its own small
    lemma, so that no proof has to evaluate the whole normaliser on a literal. */
module ColorExamples {
  import opened Wrappers
  import opened PyStr
  import opened Colors

  /** One blank on each side of a word is stripped. */
  lemma PaddedStrip(w: string)
    requires |w| > 0 && !IsSpace(w[0]) && !IsSpace(w[|w| - 1])
    ensures Strip(" " + w + " ") == w
  {
    var p := " " + w + " ";
    var q := w + " ";
    assert p[1..] == q;
    assert TrimStart(p) == q;
    assert q[..|w|] == w;
  }

  lemma ThreeChars(l: string)
    requires |l| == 3
    ensures l == [l[0], l[1], l[2]]
  {
  }

  lemma RedTrimmed(s: string)
    requires s == " Red "
    ensures Lower(Strip(s)) == "red"
  {
    assert s == " " + "Red" + " ";
    PaddedStrip("Red");
    var l := Lower("Red");
    assert l[0] == 'r' && l[1] == 'e' && l[2] == 'd';
    ThreeChars(l);
    assert Strip(s) == "Red";
  }

  lemma RedInTable()
    ensures LookupColorName("red") == Some("#FF0000")
  {
  }

  /** Colour names match case-insensitively after trimming: `" Red "` is red. */
  lemma NameExample(s: string)
    requires s == " Red "
    ensures NormalizeHexColor(Some(s)) == Some("#FF0000")
  {
    RedTrimmed(s);
    RedInTable();
  }

  lemma BareHexText(s: string)
    requires s == "ff0000"
    ensures Lower(s) == s && LookupColorName(s).None?
  {
    LowerOfNoUpper(s);
    LookupColorNameValues(s);
    assert !IsLowerChar(s[2]);
  }

  lemma BareHexShape(s: string)
    requires s == "ff0000"
    ensures |s| > 0 && s[0] != '#' && !IsSpace(s[0]) && !IsSpace(s[|s| - 1])
  {
  }

  lemma BareHexUpper(s: string)
    requires s == "ff0000"
    ensures "#" + Upper(s) == "#FF0000"
  {
    assert Upper(s) == "FF0000";
  }

  /** Hex input is accepted in lower case and without `#` ... */
  lemma HexExampleBare(s: string)
    requires s == "ff0000"
    ensures NormalizeHexColor(Some(s)) == Some("#FF0000")
  {
    BareHexText(s);
    BareHexShape(s);
    NonNameGetsHash(s);
    BareHexUpper(s);
  }

  lemma HashedHexText(s: string)
    requires s == "#ff0000"
    ensures Strip(s) == s && Lower(s) == s && Upper(s) == "#FF0000"
  {
    StripOfTrimmed(s);
    LowerOfNoUpper(s);
  }

  /** ... with `#` in lower case ... */
  lemma HexExampleHashed(s: string)
    requires s == "#ff0000"
    ensures NormalizeHexColor(Some(s)) == Some("#FF0000")
  {
    HashedHexText(s);
    HashedNonName(s);
  }

  /** ... and already normalised. */
  lemma HexExampleNormal(s: string)
    requires s == "#FF0000"
    ensures NormalizeHexColor(Some(s)) == Some(s)
  {
    NormalFormIsFixed(s);
  }

  lemma RedWithAlpha(s: string)
    requires s == "#FF0000"
    ensures AddAlpha(s, None) == "#66FF0000"
    ensures AddAlpha(s, Some(50)) == "#7FFF0000"
  {
    assert LStripChar(s, '#') == "FF0000" by { assert s[1..] == "FF0000"; }
    assert Hex2(102) == "66";
    assert Hex2(127) == "7F";
  }

  /** `"#FF0000"` gets alpha 0x66 (opacity 40) when no opacity is given and 0x7F at 50. */
  lemma HexWithAlphaExamples(s: string)
    requires s == "#FF0000"
    ensures HexWithAlpha(Some(s), None) == Some("#66FF0000")
    ensures HexWithAlpha(Some(s), Some(50)) == Some("#7FFF0000")
  {
    HexExampleNormal(s);
    RedWithAlpha(s);
  }
}
