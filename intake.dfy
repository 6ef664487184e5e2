/** Which order lines the new-order form yields. The form has ten fixed line
    slots; each slot is checked on its own and an invalid slot is skipped
    without rejecting the order. */
module OrderIntake {
  import opened Wrappers
  import opened Forms
  import opened Units
  import opened Schema

  /** The number of line slots the handler reads (`range(10)`). */
  const MaxLines: nat := 10

  /** One slot of the form: `prodotto_i` (absent or empty is `None`),
      `qta_i` and `tipo_i` (absent is `None`). */
  datatype CandidateLine = CandidateLine(productId: Option<int>, qty: NumberField, tipo: Option<string>)

  /** A line that passed every check, before it gets its ids. */
  datatype LineDraft = LineDraft(productId: int, qty: real, tipo: Tipo)

  /** The checks of one slot, in the handler's order: product and quantity
      present, quantity parsed (an unparseable quantity counts as 0) and
      positive, type "kg" or "v". */
  function CheckLine(c: CandidateLine): (r: Option<LineDraft>)
    ensures r.Some? <==> c.productId.Some? && c.qty.Number? && c.qty.value > 0.0
                         && (c.tipo == Some("kg") || c.tipo == Some("v"))
    ensures r.Some? ==> r.value.productId == c.productId.value && r.value.qty == c.qty.value
                        && r.value.qty > 0.0 && (r.value.tipo == Kg || r.value.tipo == V)
                        && TagText(r.value.tipo) == c.tipo.value
  {
    if c.productId.None? || c.qty.Blank? then None
    else
      var q := match Float(c.qty) case Some(v) => v case None => 0.0;
      if q <= 0.0 then None
      else if c.tipo != Some("kg") && c.tipo != Some("v") then None
      else Some(LineDraft(c.productId.value, q, ParseTipo(c.tipo.value)))
  }

  /** The slots the handler looks at: the first ten. */
  function Examined(slots: seq<CandidateLine>): (r: seq<CandidateLine>)
    ensures |r| <= MaxLines && |r| <= |slots| && r == slots[..|r|]
    ensures |slots| <= MaxLines ==> r == slots
    ensures |slots| > MaxLines ==> |r| == MaxLines
  {
    if |slots| <= MaxLines then slots else slots[..MaxLines]
  }

  /** The lines that pass their checks, in slot order. */
  function Survivors(slots: seq<CandidateLine>): (r: seq<LineDraft>)
    ensures |r| <= |slots|
    ensures forall d :: d in r ==> d.qty > 0.0 && (d.tipo == Kg || d.tipo == V)
  {
    if slots == [] then []
    else
      var rest := Survivors(slots[..|slots| - 1]);
      match CheckLine(slots[|slots| - 1])
      case Some(d) => rest + [d]
      case None => rest
  }

  /** The lines the handler inserts for a submitted form: at most ten, each
      with a positive quantity and one of the two intake tags. */
  function Accepted(slots: seq<CandidateLine>): (r: seq<LineDraft>)
    ensures |r| <= MaxLines && |r| <= |slots|
    ensures forall d :: d in r ==> d.qty > 0.0 && (d.tipo == Kg || d.tipo == V)
  {
    Survivors(Examined(slots))
  }

  /** The surviving lines of two runs of slots are those of each run. */
  lemma {:induction false} SurvivorsAppend(a: seq<CandidateLine>, b: seq<CandidateLine>)
    ensures Survivors(a + b) == Survivors(a) + Survivors(b)
  {
    if b == [] {
      assert a + b == a;
    } else {
      var b' := b[..|b| - 1];
      assert (a + b)[..|a + b| - 1] == a + b';
      SurvivorsAppend(a, b');
    }
  }

  /** An invalid slot is skipped: the other slots yield the same lines as if
      it were not there. */
  lemma InvalidSlotSkipped(a: seq<CandidateLine>, c: CandidateLine, b: seq<CandidateLine>)
    requires CheckLine(c).None?
    ensures Survivors(a + [c] + b) == Survivors(a + b)
  {
    SurvivorsAppend(a + [c], b);
    SurvivorsAppend(a, b);
    assert (a + [c])[..|a + [c]| - 1] == a;
  }

  /** A line is inserted exactly when one of the first ten slots passes its
      checks and yields it. */
  lemma {:induction false} SurvivorsMembers(slots: seq<CandidateLine>, d: LineDraft)
    ensures d in Survivors(slots) <==> exists i :: 0 <= i < |slots| && CheckLine(slots[i]) == Some(d)
  {
    if slots != [] {
      var s' := slots[..|slots| - 1];
      SurvivorsMembers(s', d);
      if exists i :: 0 <= i < |s'| && CheckLine(s'[i]) == Some(d) {
        var i :| 0 <= i < |s'| && CheckLine(s'[i]) == Some(d);
        assert slots[i] == s'[i];
      }
      if exists i :: 0 <= i < |slots| && CheckLine(slots[i]) == Some(d) {
        var i :| 0 <= i < |slots| && CheckLine(slots[i]) == Some(d);
        if i < |slots| - 1 {
          assert s'[i] == slots[i];
        }
      }
    }
  }

  lemma AcceptedMembers(slots: seq<CandidateLine>, d: LineDraft)
    ensures d in Accepted(slots) <==>
              exists i :: 0 <= i < |slots| && i < MaxLines && CheckLine(slots[i]) == Some(d)
    ensures |Accepted(slots)| <= MaxLines
  {
    var e := Examined(slots);
    SurvivorsMembers(e, d);
    if exists i :: 0 <= i < |slots| && i < MaxLines && CheckLine(slots[i]) == Some(d) {
      var i :| 0 <= i < |slots| && i < MaxLines && CheckLine(slots[i]) == Some(d);
      assert e[i] == slots[i];
    }
  }

  /** The rows `INSERT INTO righe_ordine` writes for the accepted lines of
      order `orderId`, numbered from `firstId` on. */
  function Materialise(drafts: seq<LineDraft>, orderId: int, firstId: int): seq<OrderLine>
  {
    seq(|drafts|, i requires 0 <= i < |drafts| =>
      OrderLine(firstId + i, orderId, drafts[i].productId, drafts[i].qty, drafts[i].tipo))
  }

  /** Every inserted row belongs to the new order, has a positive quantity
      and one of the two intake tags, and a fresh id at or above `firstId`. */
  lemma MaterialisedLines(drafts: seq<LineDraft>, orderId: int, firstId: int)
    requires forall d :: d in drafts ==> d.qty > 0.0 && (d.tipo == Kg || d.tipo == V)
    ensures var rows := Materialise(drafts, orderId, firstId);
      && |rows| == |drafts|
      && forall i :: 0 <= i < |rows| ==>
           rows[i].orderId == orderId && rows[i].id == firstId + i && rows[i].qty > 0.0
           && (rows[i].tipo == Kg || rows[i].tipo == V) && WellTagged(rows[i].tipo)
  {
    var rows := Materialise(drafts, orderId, firstId);
    forall i | 0 <= i < |rows| ensures rows[i].qty > 0.0 && (rows[i].tipo == Kg || rows[i].tipo == V) {
      assert drafts[i] in drafts;
    }
  }

  /** Inserting one more accepted line appends its row, numbered next. */
  lemma MaterialiseAppend(drafts: seq<LineDraft>, d: LineDraft, orderId: int, firstId: int)
    ensures Materialise(drafts + [d], orderId, firstId)
            == Materialise(drafts, orderId, firstId)
               + [OrderLine(firstId + |drafts|, orderId, d.productId, d.qty, d.tipo)]
  {
  }
}
