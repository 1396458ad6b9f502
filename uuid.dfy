/**
 * Canonicalisation of player ids (src/utils/uuid-utils.ts). An id is accepted
 * in the dashed 8-4-4-4-12 hexadecimal layout of section 3 of RFC 4122 or as
 * 32 bare hexadecimal digits, in either case; the canonical form is the dashed
 * layout in lower case.
 */
module UuidUtils {
  import opened Wrappers
  import opened Ascii

  /** `[0-9a-f]` under the regular expression flag `i`. */
  predicate IsHex(c: char) {
    '0' <= c <= '9' || 'a' <= c <= 'f' || 'A' <= c <= 'F'
  }

  predicate AllHex(s: string) {
    forall i :: 0 <= i < |s| ==> IsHex(s[i])
  }

  /** The positions of the four dashes of the dashed layout. */
  predicate IsDashPosition(i: int) {
    i == 8 || i == 13 || i == 18 || i == 23
  }

  /** `/^[0-9a-f]{8}-[0-9a-f]{4}-[0-9a-f]{4}-[0-9a-f]{4}-[0-9a-f]{12}$/i` */
  predicate IsDashedForm(s: string) {
    |s| == 36 && forall i :: 0 <= i < 36 ==> if IsDashPosition(i) then s[i] == '-' else IsHex(s[i])
  }

  /** `/^[0-9a-f]{32}$/i` */
  predicate IsUndashedForm(s: string) {
    |s| == 32 && AllHex(s)
  }

  /** The canonical id: the dashed layout with lower-case hexadecimal digits only. */
  predicate IsCanonical(s: string) {
    IsDashedForm(s) && forall i :: 0 <= i < |s| ==> !IsUpper(s[i])
  }

  datatype UuidError = InvalidUuidFormat

  /** `convertToDashed`: insert dashes after characters 8, 12, 16 and 20; throws unless 32 hex digits. */
  function ConvertToDashed(noDashes: string): (r: Result<string, UuidError>)
    ensures r.Success? <==> IsUndashedForm(noDashes)
    ensures r.Success? ==> IsDashedForm(r.value)
  {
    if !IsUndashedForm(noDashes) then Failure(InvalidUuidFormat)
    else
      Success(noDashes[0..8] + "-" + noDashes[8..12] + "-" + noDashes[12..16] + "-"
              + noDashes[16..20] + "-" + noDashes[20..])
  }

  /** `convertToNoDashes`: `uuid.replace(/-/g, "")`. */
  function ConvertToNoDashes(uuid: string): (r: string)
    ensures '-' !in r
    ensures |r| <= |uuid|
    ensures '-' !in uuid ==> r == uuid
  {
    if uuid == [] then []
    else if uuid[0] == '-' then ConvertToNoDashes(uuid[1..])
    else [uuid[0]] + ConvertToNoDashes(uuid[1..])
  }

  /** `tryParseUUID`: the canonical form of an accepted id, `null` for anything else. */
  function TryParseUuid(str: string): (r: Option<string>)
    ensures r.Some? <==> IsDashedForm(str) || IsUndashedForm(str)
    ensures r.Some? ==> IsCanonical(r.value)
  {
    if IsDashedForm(str) then Some(Lower(str))
    else if IsUndashedForm(str) then
      match ConvertToDashed(str)
      case Success(dashed) => Some(Lower(dashed))
      case Failure(_) => None
    else None
  }

  /** The position in the undashed text of the character at position `i` of the dashed text. */
  function UndashedIndex(i: int): int {
    if i < 8 then i else if i < 13 then i - 1 else if i < 18 then i - 2 else if i < 23 then i - 3 else i - 4
  }

  /** A dashed id in any case parses to itself lowered. */
  lemma ParseDashed(s: string)
    requires IsDashedForm(s)
    ensures TryParseUuid(s) == Some(Lower(s))
  {
  }

  /** 32 hexadecimal digits parse to the dashed layout, character by character, lowered. */
  lemma ParseUndashed(s: string)
    requires IsUndashedForm(s)
    ensures TryParseUuid(s).Some?
    ensures forall i :: 0 <= i < 36 ==>
              TryParseUuid(s).value[i] == if IsDashPosition(i) then '-' else LowerChar(s[UndashedIndex(i)])
  {
    assert !IsDashedForm(s);
    var d := ConvertToDashed(s).value;
    forall i | 0 <= i < 36
      ensures d[i] == if IsDashPosition(i) then '-' else s[UndashedIndex(i)]
    {
    }
  }

  /** Parsing is idempotent: a canonical id parses to itself. */
  lemma ParseIdempotent(s: string)
    requires TryParseUuid(s).Some?
    ensures TryParseUuid(TryParseUuid(s).value) == TryParseUuid(s)
  {
    var r := TryParseUuid(s).value;
    assert Lower(r) == r;
  }

  /** Removing the dashes undoes `convertToDashed`. */
  lemma NoDashesUndoesDashed(s: string)
    requires IsUndashedForm(s)
    ensures ConvertToNoDashes(ConvertToDashed(s).value) == s
  {
    var p0, p1, p2, p3, p4 := s[0..8], s[8..12], s[12..16], s[16..20], s[20..];
    DashedFields(s);
    NoDashesOfFields(p0, p1, p2, p3, p4);
    assert p0 + (p1 + (p2 + (p3 + p4))) == s;
  }

  /** `convertToDashed` of 32 hexadecimal digits is their five fields joined by dashes. */
  lemma DashedFields(s: string)
    requires IsUndashedForm(s)
    ensures AllHex(s[0..8]) && AllHex(s[8..12]) && AllHex(s[12..16]) && AllHex(s[16..20]) && AllHex(s[20..])
    ensures ConvertToDashed(s).value
         == s[0..8] + "-" + (s[8..12] + "-" + (s[12..16] + "-" + (s[16..20] + "-" + s[20..])))
  {
  }

  /** Removing the dashes from five hexadecimal fields joined by dashes concatenates the fields. */
  lemma NoDashesOfFields(p0: string, p1: string, p2: string, p3: string, p4: string)
    requires AllHex(p0) && AllHex(p1) && AllHex(p2) && AllHex(p3) && AllHex(p4)
    ensures ConvertToNoDashes(p0 + "-" + (p1 + "-" + (p2 + "-" + (p3 + "-" + p4))))
         == p0 + (p1 + (p2 + (p3 + p4)))
  {
    HexHasNoDash(p0);
    HexHasNoDash(p1);
    HexHasNoDash(p2);
    HexHasNoDash(p3);
    HexHasNoDash(p4);
    var r3 := p3 + "-" + p4;
    var r2 := p2 + "-" + r3;
    var r1 := p1 + "-" + r2;
    NoDashesAfterField(p3, p4);
    NoDashesAfterField(p2, r3);
    NoDashesAfterField(p1, r2);
    NoDashesAfterField(p0, r1);
  }

  /** Dashing the undashed text of a canonical id gives the id back. */
  lemma DashedUndoesNoDashes(u: string)
    requires IsCanonical(u)
    ensures ConvertToDashed(ConvertToNoDashes(u)) == Success(u)
  {
    FieldsOfDashed(u);
    NoDashesOfFields(u[0..8], u[9..13], u[14..18], u[19..23], u[24..]);
    DashedOfFields(u[0..8], u[9..13], u[14..18], u[19..23], u[24..]);
  }

  /** A dashed id is its five hexadecimal fields joined by dashes. */
  lemma FieldsOfDashed(u: string)
    requires IsDashedForm(u)
    ensures AllHex(u[0..8]) && AllHex(u[9..13]) && AllHex(u[14..18]) && AllHex(u[19..23]) && AllHex(u[24..])
    ensures u == u[0..8] + "-" + (u[9..13] + "-" + (u[14..18] + "-" + (u[19..23] + "-" + u[24..])))
  {
    assert u[8] == '-' && u[13] == '-' && u[18] == '-' && u[23] == '-';
    assert u[19..] == u[19..23] + "-" + u[24..];
    assert u[14..] == u[14..18] + "-" + u[19..];
    assert u[9..] == u[9..13] + "-" + u[14..];
    assert u == u[0..8] + "-" + u[9..];
  }

  /** Dashing five hexadecimal fields of lengths 8, 4, 4, 4 and 12 joins them with dashes. */
  lemma DashedOfFields(p0: string, p1: string, p2: string, p3: string, p4: string)
    requires |p0| == 8 && |p1| == 4 && |p2| == 4 && |p3| == 4 && |p4| == 12
    requires AllHex(p0) && AllHex(p1) && AllHex(p2) && AllHex(p3) && AllHex(p4)
    ensures ConvertToDashed(p0 + (p1 + (p2 + (p3 + p4))))
         == Success(p0 + "-" + (p1 + "-" + (p2 + "-" + (p3 + "-" + p4))))
  {
    var n := p0 + (p1 + (p2 + (p3 + p4)));
    assert n[0..8] == p0 && n[8..12] == p1 && n[12..16] == p2 && n[16..20] == p3 && n[20..] == p4;
    forall j | 0 <= j < 32 ensures IsHex(n[j]) {
      if j < 8 { assert n[j] == p0[j]; }
      else if j < 12 { assert n[j] == p1[j - 8]; }
      else if j < 16 { assert n[j] == p2[j - 12]; }
      else if j < 20 { assert n[j] == p3[j - 16]; }
      else { assert n[j] == p4[j - 20]; }
    }
    assert IsUndashedForm(n);
    assert n[0..8] + "-" + n[8..12] + "-" + n[12..16] + "-" + n[16..20] + "-" + n[20..]
        == p0 + "-" + (p1 + "-" + (p2 + "-" + (p3 + "-" + p4)));
  }

  /** A field of hexadecimal digits holds no dash. */
  lemma HexHasNoDash(x: string)
    requires AllHex(x)
    ensures '-' !in x
  {
  }

  /** Removing the dashes from a dash-free field, a dash and the rest keeps the field and cleans the rest. */
  lemma NoDashesAfterField(x: string, rest: string)
    requires '-' !in x
    ensures ConvertToNoDashes(x + "-" + rest) == x + ConvertToNoDashes(rest)
  {
    NoDashesAppend(x + "-", rest);
    NoDashesAppend(x, "-");
  }

  /** `convertToNoDashes` distributes over concatenation: it keeps the other characters in order. */
  lemma {:induction false} NoDashesAppend(a: string, b: string)
    ensures ConvertToNoDashes(a + b) == ConvertToNoDashes(a) + ConvertToNoDashes(b)
  {
    if a == [] {
      assert a + b == b;
    } else {
      assert (a + b)[1..] == a[1..] + b;
      NoDashesAppend(a[1..], b);
    }
  }

  /** On one character `convertToNoDashes` drops a dash and keeps anything else. */
  lemma NoDashesSingle(c: char)
    ensures ConvertToNoDashes([c]) == if c == '-' then [] else [c]
  {
  }
}
