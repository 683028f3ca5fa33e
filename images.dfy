/**
 * What the two image tools (src/tools/upload-image.ts, src/tools/select-image.ts)
 * share: the image kinds and the `${imagefield}_${lc}` slot name an image is
 * filed under.
 */
module Images {
  import opened Text

  /** The kinds of product image. */
  const ImageFields: set<string> := {"front", "ingredients", "nutrition", "packaging", "other"}

  /** `${imagefield}_${lc}`. */
  function Slot(field: string, lc: string): string {
    field + "_" + lc
  }

  /** The image kind a slot names: everything before the first `_`. */
  function SlotField(slot: string): string {
    slot[..IndexOf(slot, '_')]
  }

  /** The language a slot names: everything after the first `_`. */
  function SlotLanguage(slot: string): string {
    var i := IndexOf(slot, '_');
    if i < |slot| then slot[i + 1..] else ""
  }

  /** No image kind contains `_`. */
  lemma ImageFieldsUnderscoreFree()
    ensures forall f :: f in ImageFields ==> '_' !in f
  {
  }

  /**
   * The kind and the language read back from a slot whose kind has no `_`,
   * whatever the language holds; so such slots are equal only for equal kinds
   * and languages.
   */
  lemma SlotReadsBack(field: string, lc: string)
    requires '_' !in field
    ensures SlotField(Slot(field, lc)) == field
    ensures SlotLanguage(Slot(field, lc)) == lc
  {
    var s := Slot(field, lc);
    assert s == field + ['_'] + lc;
    IndexOfFirst(field, '_', lc);
    assert s[..|field|] == field;
    assert s[|field| + 1..] == lc;
  }

  lemma SlotInjective(f1: string, l1: string, f2: string, l2: string)
    requires f1 in ImageFields && f2 in ImageFields
    ensures Slot(f1, l1) == Slot(f2, l2) ==> f1 == f2 && l1 == l2
  {
    ImageFieldsUnderscoreFree();
    SlotReadsBack(f1, l1);
    SlotReadsBack(f2, l2);
  }
}
