/**
 * `TextEllipsis`: a list of texts shown as its first `amount` items, and,
 * when the list is longer, a ", " separator and a "+N" marker whose tooltip
 * lists the remaining items.
 */
module TextEllipsis {
  import opened Js

  /** The overflow part: the separator span, the tooltip title and the marker text. */
  datatype Overflow = Overflow(separator: string, tooltip: string, marker: string)

  /** What the component renders. */
  datatype Rendering = Rendering(visible: string, overflow: Option<Overflow>)

  function Render(texts: seq<string>, amount: nat): Rendering
  {
    var shown := if amount <= |texts| then texts[..amount] else texts;
    Rendering(
      Join(shown, ", "),
      if |texts| > amount
      then Some(Overflow(", ", Join(texts[amount..], ", "), "+" + NatToString(|texts| - amount)))
      else None)
  }

  /**
   * The list splits into a visible prefix and a hidden rest: the prefix has
   * `amount` items, or is the whole list when that is shorter; the overflow
   * part appears exactly when the rest is non-empty, its tooltip lists the
   * rest and its marker counts it.
   */
  lemma RenderSplitsList(texts: seq<string>, amount: nat)
    ensures var r := Render(texts, amount);
            exists shown: seq<string>, hidden: seq<string> ::
              texts == shown + hidden
              && (|shown| == amount || (|shown| < amount && hidden == []))
              && r.visible == Join(shown, ", ")
              && (r.overflow.Some? <==> hidden != [])
              && (hidden != [] ==> r.overflow.value.tooltip == Join(hidden, ", ")
                                   && r.overflow.value.marker == "+" + NatToString(|hidden|))
  {
    var r := Render(texts, amount);
    var n := if amount <= |texts| then amount else |texts|;
    var shown, hidden := texts[..n], texts[n..];
    assert texts == shown + hidden;
    assert texts[..|texts|] == texts;
    assert r.visible == Join(shown, ", ");
    assert |hidden| == |texts| - amount || hidden == [];
  }

  /**
   * With at least one visible item, the visible text followed by the
   * overflow part's separator and tooltip (when there is one) spells the
   * whole list joined by ", ", in order: no item is lost or repeated, and a
   * short list is shown whole.
   */
  lemma VisibleThenTooltipIsWholeList(texts: seq<string>, amount: nat)
    requires amount > 0 || texts == []
    ensures var r := Render(texts, amount);
            r.visible + (if r.overflow.Some? then r.overflow.value.separator + r.overflow.value.tooltip else "")
            == Join(texts, ", ")
  {
    if amount < |texts| {
      assert texts == texts[..amount] + texts[amount..];
      JoinAppend(texts[..amount], texts[amount..], ", ");
    } else if amount == |texts| {
      assert texts[..amount] == texts;
    }
  }
}
