/** The unit tag of an order line and the two conversion rules that read it:
    the stock ledger's rule (only "v" is trays) and the order views' rule
    (only "kg" is kilograms). */
module Units {

  /** The `tipo_qta` column. Intake stores only "kg" and "v"; any other text
      a row may hold is kept as `Other`. */
  datatype Tipo = Kg | V | Other(tag: string)

  /** An `Other` never carries one of the two recognised tags. */
  predicate WellTagged(t: Tipo)
  {
    t.Other? ==> t.tag != "kg" && t.tag != "v"
  }

  /** Reading the stored text into a tag. */
  function ParseTipo(s: string): (t: Tipo)
    ensures WellTagged(t)
    ensures t == Kg <==> s == "kg"
    ensures t == V <==> s == "v"
  {
    if s == "kg" then Kg else if s == "v" then V else Other(s)
  }

  /** The text stored for a tag. */
  function TagText(t: Tipo): (s: string)
  {
    match t
    case Kg => "kg"
    case V => "v"
    case Other(s) => s
  }

  /** Parsing and printing a tag are inverse on well-tagged values. */
  lemma TipoRoundTrip(t: Tipo, s: string)
    requires WellTagged(t)
    ensures ParseTipo(TagText(t)) == t
    ensures TagText(ParseTipo(s)) == s
  {
  }

  /** One order line converted for display: kilograms and trays. */
  datatype Converted = Converted(kg: real, trays: real)

  /** The per-line rule of the order views (order detail, load list,
      checklists): a "kg" line is kilograms, converted to trays unless the
      factor is 0; every other line is trays, converted to kilograms. */
  function ViewConvert(q: real, t: Tipo, factor: real): (c: Converted)
    ensures t == Kg ==> c.kg == q
    ensures t == Kg && factor != 0.0 ==> c.trays * factor == q
    ensures t == Kg && factor == 0.0 ==> c.trays == 0.0
    ensures t != Kg ==> c.trays == q && c.kg == q * factor
  {
    if t == Kg then
      Converted(q, if factor != 0.0 then q / factor else 0.0)
    else
      Converted(q * factor, q)
  }

  /** The stock ledger's per-line rule: a "v" line adds its quantity; every
      other line is kilograms and adds q / factor, or nothing when the
      factor is not positive. */
  function LedgerTrays(q: real, t: Tipo, factor: real): (v: real)
    ensures t == V ==> v == q
    ensures t != V && factor > 0.0 ==> v * factor == q
    ensures t != V && factor <= 0.0 ==> v == 0.0
  {
    if t == V then q
    else if factor > 0.0 then q / factor
    else 0.0
  }

  /** Both rules applied to a kilogram line give back the kilograms when the
      trays are converted again with the same positive factor. */
  lemma KgRoundTrip(q: real, factor: real)
    requires factor > 0.0
    ensures ViewConvert(q, Kg, factor).trays * factor == q
    ensures LedgerTrays(q, Kg, factor) * factor == q
    ensures ViewConvert(ViewConvert(q, Kg, factor).trays, V, factor).kg == q
  {
  }

  /** On the two tags intake accepts, the ledger and the views count the same
      trays exactly when the line is a tray line, the factor is not negative,
      or the quantity is zero. */
  lemma RulesAgreeOnIntakeTags(q: real, t: Tipo, factor: real)
    requires t == Kg || t == V
    ensures LedgerTrays(q, t, factor) == ViewConvert(q, t, factor).trays
            <==> (t == V || factor >= 0.0 || q == 0.0)
  {
    if t == Kg && factor < 0.0 && q != 0.0 {
      var w := q / factor;
      assert w * factor == q;
      assert w != 0.0;
    }
  }

  /** A tag outside the two recognised ones is kilograms for the ledger and
      trays for the views: with a positive factor other than 1 the two rules
      count different trays for any non-zero quantity. */
  lemma RulesDisagreeOnOtherTags(q: real, tag: string, factor: real)
    requires factor > 0.0 && factor != 1.0 && q != 0.0
    ensures LedgerTrays(q, Other(tag), factor) != ViewConvert(q, Other(tag), factor).trays
  {
    var w := q / factor;
    assert w * factor == q;
    if w == q {
      calc {
        q * factor;
        == { assert w == q; }
        w * factor;
        ==
        q;
      }
      assert false;
    }
  }
}
