/**
 * Template strings (ConfigPattern): literal text interleaved with `#field#`
 * placeholders, resolved against the fields a parser extracted from a line,
 * and the numeric reading of a resolved string with its byte-unit suffix.
 */
module Templates {
  import opened Wrappers

  /** The fields a parser extracted from one line. */
  type FieldMap = map<string, string>

  datatype Segment = Lit(text: string) | Field(name: string)

  /** A parsed template; a plain string is a template of one literal segment. */
  type Template = seq<Segment>

  /** Every placeholder of `t` names a field present in `fields`. */
  predicate Covers(t: Template, fields: FieldMap) {
    forall i :: 0 <= i < |t| && t[i].Field? ==> t[i].name in fields
  }

  /** The text of a template that has no placeholders. */
  function Text(t: Template): string
    requires forall i :: 0 <= i < |t| ==> t[i].Lit?
  {
    if t == [] then "" else t[0].text + Text(t[1..])
  }

  /** The text a segment stands for, if its field is present. */
  function SegmentText(seg: Segment, fields: FieldMap): Option<string> {
    match seg
    case Lit(s) => Some(s)
    case Field(n) => if n in fields then Some(fields[n]) else None
  }

  /**
   * Substitutes every placeholder by its field's value; a placeholder whose
   * field is absent makes the whole template unresolved.
   */
  function Resolve(t: Template, fields: FieldMap): (r: Option<string>)
    ensures r.None? ==> exists i :: 0 <= i < |t| && t[i].Field? && t[i].name !in fields
  {
    if t == [] then Some("")
    else
      var head, rest := SegmentText(t[0], fields), Resolve(t[1..], fields);
      if head.Some? && rest.Some? then Some(head.value + rest.value) else None
  }

  /** A template resolves exactly when every field it names is present. */
  lemma {:induction false} ResolveDefinedIff(t: Template, fields: FieldMap)
    ensures Resolve(t, fields).Some? <==> Covers(t, fields)
  {
    if t != [] {
      ResolveDefinedIff(t[1..], fields);
      assert Covers(t, fields) <==> (t[0].Field? ==> t[0].name in fields) && Covers(t[1..], fields) by {
        if Covers(t[1..], fields) && (t[0].Field? ==> t[0].name in fields) {
          forall i | 0 <= i < |t| && t[i].Field? ensures t[i].name in fields {
            if i > 0 { assert t[i] == t[1..][i - 1]; }
          }
        }
        if Covers(t, fields) {
          forall i | 0 <= i < |t[1..]| && t[1..][i].Field? ensures t[1..][i].name in fields {
            assert t[1..][i] == t[i + 1];
          }
        }
      }
    }
  }

  /** A template without placeholders is plain text and resolves to that text, whatever the fields. */
  lemma {:induction false} ResolveLiteral(t: Template, fields: FieldMap)
    requires forall i :: 0 <= i < |t| ==> t[i].Lit?
    ensures Resolve(t, fields) == Some(Text(t))
  {
    if t != [] {
      assert forall i :: 0 <= i < |t[1..]| ==> t[1..][i] == t[i + 1];
      ResolveLiteral(t[1..], fields);
    }
  }

  /** Resolution works segment by segment: a template split in two resolves to the concatenation of its halves. */
  lemma {:induction false} ResolveAppend(a: Template, b: Template, fields: FieldMap)
    requires Resolve(a, fields).Some? && Resolve(b, fields).Some?
    ensures Resolve(a + b, fields) == Some(Resolve(a, fields).value + Resolve(b, fields).value)
  {
    if a == [] {
      assert a + b == b;
      assert "" + Resolve(b, fields).value == Resolve(b, fields).value;
    } else {
      var ab := a + b;
      assert ab[0] == a[0];
      assert ab[1..] == a[1..] + b;
      ResolveAppend(a[1..], b, fields);
      var head := SegmentText(a[0], fields).value;
      var ra, rb := Resolve(a[1..], fields).value, Resolve(b, fields).value;
      assert Resolve(ab, fields) == Some(head + (ra + rb));
      assert head + (ra + rb) == (head + ra) + rb;
    }
  }

  /** A field's own placeholder resolves to that field's value. */
  lemma ResolveField(name: string, fields: FieldMap)
    requires name in fields
    ensures Resolve([Field(name)], fields) == Some(fields[name])
  {
    assert [Field(name)][1..] == [];
    assert fields[name] + "" == fields[name];
  }

  // ---------------------------------------------------------------- numbers

  predicate IsDigit(c: char) { '0' <= c <= '9' }

  predicate IsDigits(s: string) {
    |s| > 0 && forall i :: 0 <= i < |s| ==> IsDigit(s[i])
  }

  /** The number a string of decimal digits denotes, most significant first. */
  function DigitsValue(s: string): nat
    requires forall i :: 0 <= i < |s| ==> IsDigit(s[i])
  {
    if s == [] then 0
    else
      var last := s[|s| - 1];
      assert IsDigit(last);
      DigitsValue(s[..|s| - 1]) * 10 + (last as int - '0' as int)
  }

  /** Appending a digit shifts the value one decimal place. */
  lemma DigitsSnoc(s: string, c: char)
    requires forall i :: 0 <= i < |s| ==> IsDigit(s[i])
    requires IsDigit(c)
    ensures forall i :: 0 <= i < |s + [c]| ==> IsDigit((s + [c])[i])
    ensures DigitsValue(s + [c]) == DigitsValue(s) * 10 + (c as int - '0' as int)
  {
  }

  /** An unsigned decimal integer, or nothing for any other string. */
  function ParseNat(s: string): Option<nat> {
    if IsDigits(s) then Some(DigitsValue(s)) else None
  }

  function DigitChar(d: nat): (c: char)
    requires d < 10
    ensures IsDigit(c) && c as int - '0' as int == d
  {
    ('0' as int + d) as char
  }

  /** The decimal rendering of a natural number. */
  function NatToString(n: nat): (s: string)
    ensures IsDigits(s)
  {
    if n < 10 then [DigitChar(n)] else NatToString(n / 10) + [DigitChar(n % 10)]
  }

  /** Reading back a rendered natural number gives that number. */
  lemma {:induction false} ParseNatRoundTrip(n: nat)
    ensures ParseNat(NatToString(n)) == Some(n)
  {
    var s := NatToString(n);
    if n < 10 {
      assert s[..|s| - 1] == [];
    } else {
      ParseNatRoundTrip(n / 10);
      assert s[..|s| - 1] == NatToString(n / 10);
    }
    assert DigitsValue(s) == n;
  }

  /** The binary byte-unit suffixes, in either case. */
  function UnitFactor(c: char): Option<nat> {
    if c == 'K' || c == 'k' then Some(1024)
    else if c == 'M' || c == 'm' then Some(1024 * 1024)
    else if c == 'G' || c == 'g' then Some(1024 * 1024 * 1024)
    else None
  }

  /** A metric value: a decimal, optionally followed by a byte-unit suffix that scales it. */
  function ParseNumber(s: string): (r: Option<real>)
    ensures r.Some? ==> r.value >= 0.0
    ensures IsDigits(s) ==> r == Some(DigitsValue(s) as real)
  {
    if |s| > 0 && UnitFactor(s[|s| - 1]).Some? then
      match ParseNat(s[..|s| - 1])
      case None => None
      case Some(n) => Some((n * UnitFactor(s[|s| - 1]).value) as real)
    else
      match ParseNat(s)
      case None => None
      case Some(n) => Some(n as real)
  }

  /** A rendered number followed by a unit suffix reads back as the number times the unit. */
  lemma ParseNumberRoundTrip(n: nat, unit: char)
    requires UnitFactor(unit).Some?
    ensures ParseNumber(NatToString(n) + [unit]) == Some((n * UnitFactor(unit).value) as real)
  {
    var s := NatToString(n) + [unit];
    assert s[..|s| - 1] == NatToString(n);
    ParseNatRoundTrip(n);
  }

  /** A rendered number with no suffix reads back as itself. */
  lemma ParsePlainNumberRoundTrip(n: nat)
    ensures ParseNumber(NatToString(n)) == Some(n as real)
  {
    ParseNatRoundTrip(n);
  }
}
