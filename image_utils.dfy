/**
 * The pure helpers of `ImageUtils`: the hex colour parser, a formatter that
 * inverts it, and the size condition of `compress_image`.
 */
module ImageUtils {
  import opened Wrappers
  import opened Imaging

  const LengthError := "Invalid background color format. Use a 6-digit hex code."
  const DigitError := "Invalid hex color format. Use a 6-digit hex code."

  /** `s.lstrip('#')`: every leading '#' is removed, nothing else. */
  function StripHashes(s: string): (r: string)
    ensures |r| <= |s| && r == s[|s| - |r|..]
    ensures forall i :: 0 <= i < |s| - |r| ==> s[i] == '#'
    ensures r == [] || r[0] != '#'
  {
    if |s| > 0 && s[0] == '#' then StripHashes(s[1..]) else s
  }

  predicate IsHexDigit(c: char) {
    ('0' <= c <= '9') || ('a' <= c <= 'f') || ('A' <= c <= 'F')
  }

  function HexValue(c: char): (v: int)
    requires IsHexDigit(c)
    ensures 0 <= v < 16
  {
    if '0' <= c <= '9' then c as int - '0' as int
    else if 'a' <= c <= 'f' then c as int - 'a' as int + 10
    else c as int - 'A' as int + 10
  }

  predicate AllHex(s: string) {
    forall i :: 0 <= i < |s| ==> IsHexDigit(s[i])
  }

  /** `int(s[i:i+2], 16)` for a pair of hex digits. */
  function PairValue(s: string, i: nat): (v: int)
    requires i + 2 <= |s| && AllHex(s)
    ensures 0 <= v < 256
  {
    16 * HexValue(s[i]) + HexValue(s[i + 1])
  }

  /**
   * `validate_hex_color`: `None` or `""` gives no colour; otherwise all
   * leading '#' are stripped, the rest must be six characters long, and each
   * pair must be hex.
   */
  function ValidateHexColor(colorHex: Option<string>): (r: Result<Option<Rgb>, Error>)
    ensures r == Success(None) <==> colorHex == None || colorHex == Some("")
    ensures r.Success? && r.value.Some? ==> r.value.value.InByteRange()
    ensures colorHex.Some? && colorHex.value != "" ==>
              var s := StripHashes(colorHex.value);
              && (|s| != 6 <==> r == Failure(ValueError(LengthError)))
              && (|s| == 6 && !AllHex(s) <==> r == Failure(ValueError(DigitError)))
              && (r.Success? <==> |s| == 6 && AllHex(s))
  {
    if colorHex == None || colorHex == Some("") then Success(None)
    else
      var s := StripHashes(colorHex.value);
      if |s| != 6 then Failure(ValueError(LengthError))
      else if !AllHex(s) then Failure(ValueError(DigitError))
      else Success(Some(Rgb(PairValue(s, 0), PairValue(s, 2), PairValue(s, 4))))
  }

  /** The upper-case hex digit of `d`. */
  function HexDigit(d: int): (c: char)
    requires 0 <= d < 16
    ensures IsHexDigit(c) && HexValue(c) == d
  {
    if d < 10 then ('0' as int + d) as char else ('A' as int + d - 10) as char
  }

  /** The formatter the parser is checked against: six upper-case hex digits. */
  function FormatHex(c: Rgb): (s: string)
    requires c.InByteRange()
    ensures |s| == 6 && AllHex(s)
  {
    [HexDigit(c.r / 16), HexDigit(c.r % 16),
     HexDigit(c.g / 16), HexDigit(c.g % 16),
     HexDigit(c.b / 16), HexDigit(c.b % 16)]
  }

  function Hashes(n: nat): (s: string)
    ensures |s| == n && forall i :: 0 <= i < n ==> s[i] == '#'
  {
    if n == 0 then "" else "#" + Hashes(n - 1)
  }

  lemma {:induction false} StripHashesOfPrefix(n: nat, t: string)
    requires t == [] || t[0] != '#'
    ensures StripHashes(Hashes(n) + t) == t
  {
    if n > 0 {
      assert (Hashes(n) + t)[1..] == Hashes(n - 1) + t;
      StripHashesOfPrefix(n - 1, t);
    } else {
      assert Hashes(n) + t == t;
    }
  }

  /** Formatting a colour and parsing it back, behind any number of '#', gives the colour. */
  lemma {:induction false} FormatThenValidate(c: Rgb, hashes: nat)
    requires c.InByteRange()
    ensures ValidateHexColor(Some(Hashes(hashes) + FormatHex(c))) == Success(Some(c))
  {
    var s := FormatHex(c);
    StripHashesOfPrefix(hashes, s);
    assert Hashes(hashes) + s != "" by { assert |Hashes(hashes) + s| >= 6; }
    assert PairValue(s, 0) == c.r;
    assert PairValue(s, 2) == c.g;
    assert PairValue(s, 4) == c.b;
  }

  /** The upper-case form of a hex digit. */
  function UpperHex(c: char): char {
    if 'a' <= c <= 'f' then (c as int - 'a' as int + 'A' as int) as char else c
  }

  function Upper(s: string): (r: string)
    ensures |r| == |s| && forall i :: 0 <= i < |s| ==> r[i] == UpperHex(s[i])
  {
    if s == [] then [] else [UpperHex(s[0])] + Upper(s[1..])
  }

  lemma DigitOfValue(c: char)
    requires IsHexDigit(c)
    ensures HexDigit(HexValue(c)) == UpperHex(c)
  {
  }

  lemma DigitsOfPair(s: string, i: nat)
    requires i + 2 <= |s| && AllHex(s)
    ensures HexDigit(PairValue(s, i) / 16) == UpperHex(s[i])
    ensures HexDigit(PairValue(s, i) % 16) == UpperHex(s[i + 1])
  {
    var hi, lo := HexValue(s[i]), HexValue(s[i + 1]);
    assert PairValue(s, i) / 16 == hi && PairValue(s, i) % 16 == lo;
    DigitOfValue(s[i]);
    DigitOfValue(s[i + 1]);
  }

  /** A six-character string holding each channel's digits in order is the formatted colour. */
  lemma FormatByDigits(c: Rgb, l: string)
    requires c.InByteRange() && |l| == 6
    requires l[0] == HexDigit(c.r / 16) && l[1] == HexDigit(c.r % 16)
    requires l[2] == HexDigit(c.g / 16) && l[3] == HexDigit(c.g % 16)
    requires l[4] == HexDigit(c.b / 16) && l[5] == HexDigit(c.b % 16)
    ensures FormatHex(c) == l
  {
  }

  /** Six hex digits, read as three channels and formatted again, are the upper-cased digits. */
  lemma FormatOfPairs(s: string)
    requires |s| == 6 && AllHex(s)
    ensures Rgb(PairValue(s, 0), PairValue(s, 2), PairValue(s, 4)).InByteRange()
    ensures FormatHex(Rgb(PairValue(s, 0), PairValue(s, 2), PairValue(s, 4))) == Upper(s)
  {
    var c := Rgb(PairValue(s, 0), PairValue(s, 2), PairValue(s, 4));
    DigitsOfPair(s, 0);
    DigitsOfPair(s, 2);
    DigitsOfPair(s, 4);
    var u := Upper(s);
    assert u[0] == UpperHex(s[0]) && u[1] == UpperHex(s[1]) && u[2] == UpperHex(s[2]);
    assert u[3] == UpperHex(s[3]) && u[4] == UpperHex(s[4]) && u[5] == UpperHex(s[5]);
    FormatByDigits(c, u);
  }

  /**
   * The converse: a string the parser accepts is, after its leading '#'s and
   * up to the case of its letters, exactly the formatted colour.
   */
  lemma ValidateThenFormat(colorHex: string, c: Rgb)
    requires ValidateHexColor(Some(colorHex)) == Success(Some(c))
    ensures c.InByteRange()
    ensures Upper(StripHashes(colorHex)) == FormatHex(c)
  {
    var s := StripHashes(colorHex);
    assert |s| == 6 && AllHex(s);
    assert c == Rgb(PairValue(s, 0), PairValue(s, 2), PairValue(s, 4));
    FormatOfPairs(s);
  }

  /**
   * What `thumbnail((m, m))` promises: the image then fits in m by m and keeps
   * its mode. Its aspect-preserving rounding is not modelled.
   */
  ghost predicate ThumbnailFits(tk: Toolkit) {
    forall img: Image, m: int {:trigger tk.thumbnail(img, m)} :: 1 <= m ==>
      var t := tk.thumbnail(img, m);
      t.width <= m && t.height <= m && t.mode == img.mode
  }

  /** `compress_image`: an image that already fits is returned untouched; a larger one is thumbnailed. */
  function CompressImage(tk: Toolkit, img: Image, maxSize: int): (r: Image)
    ensures img.width <= maxSize && img.height <= maxSize ==> r == img
    ensures !(img.width <= maxSize && img.height <= maxSize) ==> r == tk.thumbnail(img, maxSize)
  {
    if img.width > maxSize || img.height > maxSize then tk.thumbnail(img, maxSize) else img
  }

  /** Under the thumbnail's promise, the compressed image always fits in maxSize by maxSize. */
  lemma CompressedFits(tk: Toolkit, img: Image, maxSize: int)
    requires ThumbnailFits(tk) && maxSize >= 1
    ensures var r := CompressImage(tk, img, maxSize);
            r.width <= maxSize && r.height <= maxSize && r.mode == img.mode
  {
  }
}
