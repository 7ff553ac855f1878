/** The labelled input (components/ui/form-field.tsx): its id and what it shows for errors and help. */
module FormFieldModel {
  import opened Wrappers
  import opened Text

  /** Every maximal run of whitespace becomes one "-". */
  function CollapseSpaceRuns(s: string): (r: string)
    ensures NoSpace(r)
    ensures |r| <= |s|
    decreases |s|
  {
    if s == [] then []
    else if IsSpace(s[0]) then "-" + CollapseSpaceRuns(TrimStart(s))
    else [s[0]] + CollapseSpaceRuns(s[1..])
  }

  /** Whitespace-free text passes through unchanged. */
  lemma {:induction false} CollapseKeepsPlainText(s: string)
    requires NoSpace(s)
    ensures CollapseSpaceRuns(s) == s
  {
    if s != [] {
      CollapseKeepsPlainText(s[1..]);
    }
  }

  lemma {:induction false} TrimStartSkipsSpacePrefix(w: string, rest: string)
    requires AllSpace(w) && (rest == [] || !IsSpace(rest[0]))
    ensures TrimStart(w + rest) == rest
  {
    if w != [] {
      assert (w + rest)[1..] == w[1..] + rest;
      TrimStartSkipsSpacePrefix(w[1..], rest);
    } else {
      assert w + rest == rest;
    }
  }

  /** A whole run of whitespace, however long, turns into exactly one "-". */
  lemma CollapseRunToOneDash(w: string, rest: string)
    requires w != [] && AllSpace(w) && (rest == [] || !IsSpace(rest[0]))
    ensures CollapseSpaceRuns(w + rest) == "-" + CollapseSpaceRuns(rest)
  {
    assert (w + rest)[0] == w[0];
    TrimStartSkipsSpacePrefix(w, rest);
  }

  /** The id derived from a caption: lower-cased, whitespace runs turned into "-". */
  function Slug(caption: string): (r: string)
    ensures NoSpace(r) && |r| <= |caption|
  {
    CollapseSpaceRuns(ToLower(caption))
  }

  /** The input id: the explicit id when it is non-empty, otherwise the slug of the label. */
  function InputId(id: Option<string>, caption: string): (r: string)
    ensures IsTruthy(id) ==> r == id.value
    ensures !IsTruthy(id) ==> r == Slug(caption) && NoSpace(r) && |r| <= |caption|
  {
    if IsTruthy(id) then id.value else Slug(caption)
  }

  /** A whitespace-free prefix is copied through as it is. */
  lemma {:induction false} CollapseKeepsPlainPrefix(p: string, rest: string)
    requires NoSpace(p)
    ensures CollapseSpaceRuns(p + rest) == p + CollapseSpaceRuns(rest)
  {
    if p == [] {
      assert p + rest == rest;
    } else {
      assert (p + rest)[0] == p[0];
      assert (p + rest)[1..] == p[1..] + rest;
      CollapseKeepsPlainPrefix(p[1..], rest);
    }
  }

  lemma LowerKeepsNoSpace(s: string)
    requires NoSpace(s)
    ensures NoSpace(ToLower(s))
  {
  }

  lemma LowerDistributes(x: string, y: string)
    ensures ToLower(x + y) == ToLower(x) + ToLower(y)
  {
  }

  /** Two words separated by one blank: "Company Name" gives "company-name". */
  lemma SlugOfTwoWords(a: string, b: string)
    requires NoSpace(a) && NoSpace(b) && b != []
    ensures Slug(a + " " + b) == ToLower(a) + "-" + ToLower(b)
  {
    var la, lb := ToLower(a), ToLower(b);
    assert a + " " + b == a + (" " + b);
    LowerDistributes(a, " " + b);
    LowerDistributes(" ", b);
    assert ToLower(" ") == " ";
    LowerKeepsNoSpace(a);
    LowerKeepsNoSpace(b);
    var tail := " " + lb;
    CollapseKeepsPlainText(lb);
    CollapseRunToOneDash(" ", lb);
    assert CollapseSpaceRuns(tail) == "-" + lb;
    assert ToLower(a + " " + b) == la + tail;
    CollapseKeepsPlainPrefix(la, tail);
    assert la + ("-" + lb) == la + "-" + lb;
  }

  datatype ErrorParagraph = ErrorParagraph(id: string, text: string)

  /** What the component renders, apart from markup and styling. */
  datatype FieldView = FieldView(
    labelFor: string,
    inputId: string,
    ariaInvalid: bool,
    ariaDescribedBy: Option<string>,
    errorParagraph: Option<ErrorParagraph>,
    helper: Option<string>)

  const ErrorSuffix: string := "-error"

  function Render(caption: string, id: Option<string>, error: Option<string>, helperText: Option<string>): (v: FieldView)
    ensures v.labelFor == v.inputId == InputId(id, caption)
    ensures v.ariaInvalid <==> IsTruthy(error)
    ensures v.ariaDescribedBy == if IsTruthy(error) then Some(v.inputId + ErrorSuffix) else None
    ensures v.errorParagraph.Some? <==> IsTruthy(error)
    ensures v.errorParagraph.Some? ==> v.errorParagraph.value == ErrorParagraph(v.inputId + ErrorSuffix, error.value)
    ensures v.helper.Some? <==> IsTruthy(helperText) && !IsTruthy(error)
    ensures v.helper.Some? ==> v.helper.value == helperText.value
    ensures v.errorParagraph.Some? ==> v.ariaDescribedBy == Some(v.errorParagraph.value.id)
    ensures !(v.errorParagraph.Some? && v.helper.Some?)
  {
    var inputId := InputId(id, caption);
    var hasError := IsTruthy(error);
    FieldView(
      inputId,
      inputId,
      hasError,
      if hasError then Some(inputId + ErrorSuffix) else None,
      if hasError then Some(ErrorParagraph(inputId + ErrorSuffix, error.value)) else None,
      if IsTruthy(helperText) && !hasError then Some(helperText.value) else None)
  }
}
