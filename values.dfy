/** The value of one struct field, by reflect kind, and its text as
    getFieldValue renders it. */
module Values {
  import opened Wrappers
  import opened Ints
  import opened Decimal

  /** One field value. The signed kinds (int, int8 ... int64) are read through
      Value.Int() and the unsigned ones (uint ... uint64, uintptr) through
      Value.Uint(), so each group is one case at 64 bits. A float keeps only the
      text strconv.FormatFloat(f, 'f', 2, 64) gives for it. Any other kind
      (pointer, slice, struct, ...) keeps only its type's name. */
  datatype Value =
    | Invalid
    | Signed(i: Int64)
    | Unsigned(u: Uint64)
    | Float(fixed2: string)
    | Str(s: string)
    | Bool(b: bool)
    | Other(typeName: string)

  /** getFieldValue: the text a field value contributes to a statement. */
  function FieldValue(v: Value): (r: string)
    ensures v.Invalid? ==> r == "invalid"
    ensures v.Signed? ==> |r| >= 1 && (r[0] == '-' <==> v.i < 0)
                          && Canonical(if v.i < 0 then r[1..] else r) && ParseInt(r) == Some(v.i)
    ensures v.Unsigned? ==> Canonical(r) && ParseUint(r) == Some(v.u)
    ensures v.Float? ==> r == v.fixed2
    ensures v.Str? ==> r == v.s
    ensures v.Bool? ==> r == (if v.b then "true" else "false")
    ensures v.Other? ==> r == v.typeName + " value"
  {
    match v
    case Invalid => "invalid"
    case Signed(i) => FormatInt(i)
    case Unsigned(u) => FormatUint(u)
    case Float(fixed2) => fixed2
    case Str(s) => s
    case Bool(b) => if b then "true" else "false"
    case Other(typeName) => typeName + " value"
  }

  /** Sample renderings: signed and unsigned numbers, a boolean, a missing value. */
  lemma RenderingExamples()
    ensures FieldValue(Signed(7)) == "7" && FieldValue(Signed(-12)) == "-12"
    ensures FieldValue(Unsigned(7)) == "7"
    ensures FieldValue(Bool(false)) == "false" && FieldValue(Invalid) == "invalid"
  {
    assert NatToDecimal(7) == "7" by {
      assert DigitChar(7) == '7';
    }
    assert NatToDecimal(12) == "12" by {
      assert DigitChar(1) == '1' && DigitChar(2) == '2';
    }
  }
}
