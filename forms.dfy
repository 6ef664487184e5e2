/** What the request handlers do to raw form fields before they touch the
    database: `float(...)` on a number field, `str.strip()` on a text field,
    `... or None` for an optional code and `... or today` for a date. */
module Forms {
  import opened Wrappers

  /** A number field as `float()` sees it once `,` has been replaced by `.`:
      empty, not a number, or a number. */
  datatype NumberField = Blank | Unparsable | Number(value: real)

  /** Python's `float(text)`: `None` stands for the `ValueError` it raises. */
  function Float(f: NumberField): (r: Option<real>)
    ensures r.Some? <==> f.Number?
    ensures r.Some? ==> r.value == f.value
  {
    match f
    case Number(v) => Some(v)
    case _ => None
  }

  /** The characters Python's `str.isspace()` accepts (and so `str.strip()`
      removes): ASCII whitespace, the four information separators, NEL,
      and the Unicode space separators and line/paragraph separators. */
  predicate IsSpace(c: char)
  {
    c == ' ' || ('\t' <= c <= '\r') || ('\U{1c}' <= c <= '\U{1f}')
    || c == '\U{85}' || c == '\U{a0}' || c == '\U{1680}'
    || ('\U{2000}' <= c <= '\U{200a}') || c == '\U{2028}' || c == '\U{2029}'
    || c == '\U{202f}' || c == '\U{205f}' || c == '\U{3000}'
  }

  function TrimStart(s: string): (r: string)
    ensures |r| <= |s| && r == s[|s| - |r|..]
    ensures r == [] || !IsSpace(r[0])
    ensures forall i :: 0 <= i < |s| - |r| ==> IsSpace(s[i])
  {
    if |s| > 0 && IsSpace(s[0]) then TrimStart(s[1..]) else s
  }

  function TrimEnd(s: string): (r: string)
    ensures |r| <= |s| && r == s[..|r|]
    ensures r == [] || !IsSpace(r[|r| - 1])
    ensures forall i :: |r| <= i < |s| ==> IsSpace(s[i])
  {
    if |s| > 0 && IsSpace(s[|s| - 1]) then TrimEnd(s[..|s| - 1]) else s
  }

  /** Python's `str.strip()` with no argument: never longer than its input,
      and a non-empty result starts and ends with a non-whitespace character. */
  function Strip(s: string): (r: string)
    ensures |r| <= |s|
    ensures r == [] || (!IsSpace(r[0]) && !IsSpace(r[|r| - 1]))
  {
    var t := TrimStart(s);
    var r := TrimEnd(t);
    assert r != [] ==> r[0] == t[0];
    r
  }

  /** Strip keeps a contiguous slice of its input and drops only whitespace
      around it. */
  lemma {:induction false} StripIsTrimmedSlice(s: string)
    ensures exists i, j :: (0 <= i <= j <= |s| && Strip(s) == s[i..j]
                            && (forall k :: 0 <= k < i ==> IsSpace(s[k]))
                            && (forall k :: j <= k < |s| ==> IsSpace(s[k])))
  {
    var t := TrimStart(s);
    var r := TrimEnd(t);
    var i := |s| - |t|;
    var j := i + |r|;
    assert t == s[i..];
    assert r == t[..|r|];
    assert r == s[i..j];
    assert Strip(s) == r;
    assert forall k :: 0 <= k < i ==> IsSpace(s[k]);
    forall k | j <= k < |s|
      ensures IsSpace(s[k])
    {
      assert s[k] == t[k - i];
    }
    assert 0 <= i <= j <= |s| && Strip(s) == s[i..j];
  }

  /** Stripping twice is stripping once. */
  lemma {:induction false} StripIdempotent(s: string)
    ensures Strip(Strip(s)) == Strip(s)
  {
    var r := Strip(s);
    if r != [] {
      assert TrimStart(r) == r;
      assert TrimEnd(r) == r;
    }
  }

  /** `field.strip() or None`: the optional code columns. A field of
      whitespace alone stores no code; any other field stores its stripped
      text, which has no whitespace left at either end and which stripping
      again would not change. */
  function OptionalText(field: string): (r: Option<string>)
    ensures r.None? <==> forall k :: 0 <= k < |field| ==> IsSpace(field[k])
    ensures r.Some? ==> r.value == Strip(field) && Strip(r.value) == r.value
    ensures r.Some? ==> r.value != [] && !IsSpace(r.value[0]) && !IsSpace(r.value[|r.value| - 1])
  {
    StripIsTrimmedSlice(field);
    StripIdempotent(field);
    var t := Strip(field);
    if t == [] then None else Some(t)
  }

  /** `request.form.get("data") or today`: an absent or empty date falls
      back to the caller-supplied current date. */
  function DateOrToday(field: string, today: string): (r: string)
    ensures field != [] ==> r == field
    ensures field == [] ==> r == today
  {
    if field == [] then today else field
  }
}
