/**
 * The typed view of a follow-up form submission and its value normalisers
 * (`FormSubmissionField`, `FormSubmissionPayload`).
 */
module FormSubmissionDto {
  import opened Wrappers
  import opened Json
  import Text

  /** A submitted field: any value plus an optional label. */
  datatype SubmissionField = SubmissionField(value: Value, labelText: Option<string>)

  /** The submission payload: status, the message it replies to, a top-level value and fields. */
  datatype SubmissionPayload = SubmissionPayload(
    status: Option<string>,
    repliedTo: Option<string>,
    value: Value,
    fields: seq<SubmissionField>)

  /** A present normalised value is never empty and already stripped and lower-case. */
  predicate IsNormalizedChoice(r: Option<string>) {
    r.Some? ==> r.value != [] && Text.IsNormalized(r.value)
  }

  function OptionalText(s: Option<string>): Value {
    if s.Some? then Str(s.value) else Null
  }

  /**
   * `_normalize_scalar`: None and the empty list give None; a list stands for
   * its first element; a bool gives "true"/"false"; anything else is its
   * `str()` text, stripped and lower-cased, and blank text gives None.
   */
  function NormalizeScalar(v: Value): (r: Option<string>)
    ensures IsNormalizedChoice(r)
    ensures v.Null? || v == List([]) ==> r.None?
    ensures v.Bool? ==> r == Some(if v.b then "true" else "false")
    ensures v.Str? ==> r == (if Text.IsBlank(v.s) then None else Some(Text.StripLower(v.s)))
  {
    if v.Null? then None
    else
      var current := if v.List? then (if v.items == [] then Null else v.items[0]) else v;
      if v.List? && v.items == [] then None
      else if current.Bool? then Some(if current.b then "true" else "false")
      else
        var text := Text.StripLower(PyStr(current));
        if text == [] then None else Some(text)
  }

  /** Re-normalising a normalised value gives the same value. */
  lemma NormalizeScalarIdempotent(v: Value)
    ensures var r := NormalizeScalar(v);
            r.Some? ==> NormalizeScalar(Str(r.value)) == r
  {
  }

  /** `FormSubmissionField.normalized_value`: the value, else (only when it normalises to None) the label. */
  function NormalizedValue(f: SubmissionField): (r: Option<string>)
    ensures IsNormalizedChoice(r)
    ensures NormalizeScalar(f.value).Some? ==> r == NormalizeScalar(f.value)
    ensures NormalizeScalar(f.value).None? ==> r == NormalizeScalar(OptionalText(f.labelText))
  {
    var normalized := NormalizeScalar(f.value);
    if normalized.Some? then normalized else NormalizeScalar(OptionalText(f.labelText))
  }

  /** `FormSubmissionPayload.normalized_status`: the same normaliser as field values. */
  function NormalizedStatus(p: SubmissionPayload): (r: Option<string>)
    ensures IsNormalizedChoice(r)
    ensures r == NormalizeScalar(OptionalText(p.status))
  {
    NormalizeScalar(OptionalText(p.status))
  }

  /** `FormSubmissionPayload.first_choice`: an early-return search over the fields. */
  function FirstChoice(p: SubmissionPayload): (r: Option<string>)
  {
    FirstFieldChoice(p.fields, p.value)
  }

  function FirstFieldChoice(fields: seq<SubmissionField>, fallback: Value): Option<string>
  {
    if fields == [] then NormalizeScalar(fallback)
    else if NormalizedValue(fields[0]).Some? then NormalizedValue(fields[0])
    else FirstFieldChoice(fields[1..], fallback)
  }

  /** No field before position `i` has a normalised value. */
  predicate NoneBefore(fields: seq<SubmissionField>, i: int)
    requires i <= |fields|
  {
    forall j :: 0 <= j < i ==> NormalizedValue(fields[j]).None?
  }

  /**
   * `first_choice` is the normalised value of the first field that has one;
   * when no field has one it is the normalised top-level value.
   */
  lemma FirstChoiceIsFirstMatch(p: SubmissionPayload)
    ensures IsNormalizedChoice(FirstChoice(p))
    ensures NoneBefore(p.fields, |p.fields|) ==> FirstChoice(p) == NormalizeScalar(p.value)
    ensures forall i :: 0 <= i < |p.fields| && NormalizedValue(p.fields[i]).Some? && NoneBefore(p.fields, i)
                   ==> FirstChoice(p) == NormalizedValue(p.fields[i])
  {
    FirstFieldChoiceNormalized(p.fields, p.value);
    if NoneBefore(p.fields, |p.fields|) {
      FirstFieldChoiceFallback(p.fields, p.value);
    }
    forall i | 0 <= i < |p.fields| && NormalizedValue(p.fields[i]).Some? && NoneBefore(p.fields, i)
      ensures FirstChoice(p) == NormalizedValue(p.fields[i])
    {
      FirstFieldChoiceAt(p.fields, p.value, i);
    }
  }

  lemma {:induction false} FirstFieldChoiceNormalized(fields: seq<SubmissionField>, fallback: Value)
    ensures IsNormalizedChoice(FirstFieldChoice(fields, fallback))
  {
    if fields != [] {
      FirstFieldChoiceNormalized(fields[1..], fallback);
    }
  }

  lemma {:induction false} FirstFieldChoiceFallback(fields: seq<SubmissionField>, fallback: Value)
    requires NoneBefore(fields, |fields|)
    ensures FirstFieldChoice(fields, fallback) == NormalizeScalar(fallback)
  {
    if fields != [] {
      var tail := fields[1..];
      assert NoneBefore(tail, |tail|) by {
        forall j | 0 <= j < |tail| ensures NormalizedValue(tail[j]).None? {
          assert tail[j] == fields[j + 1];
        }
      }
      FirstFieldChoiceFallback(tail, fallback);
      assert NormalizedValue(fields[0]).None?;
    }
  }

  lemma {:induction false} FirstFieldChoiceAt(fields: seq<SubmissionField>, fallback: Value, i: nat)
    requires i < |fields| && NormalizedValue(fields[i]).Some? && NoneBefore(fields, i)
    ensures FirstFieldChoice(fields, fallback) == NormalizedValue(fields[i])
  {
    if i > 0 {
      var tail := fields[1..];
      assert tail[i - 1] == fields[i];
      assert NoneBefore(tail, i - 1) by {
        forall j | 0 <= j < i - 1 ensures NormalizedValue(tail[j]).None? {
          assert tail[j] == fields[j + 1];
        }
      }
      FirstFieldChoiceAt(tail, fallback, i - 1);
      assert NormalizedValue(fields[0]).None?;
    }
  }
}
