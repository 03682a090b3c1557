/** The id rule shared by src/shared/components/Input.tsx and
    src/shared/components/Textarea.tsx:
    `id || label.toLowerCase().replace(/\s+/g, '-')`. */
module FieldIds {
  import opened Common

  /** `replace(/\s+/g, '-')`: every maximal run of whitespace becomes one `-`. */
  function CollapseSpaces(s: string): (r: string)
    ensures NoSpace(r)
    decreases |s|
  {
    if s == [] then []
    else if IsSpace(s[0]) then "-" + CollapseSpaces(TrimStart(s))
    else [s[0]] + CollapseSpaces(s[1..])
  }

  /** Dropping a run of whitespace in front of a non-space. */
  lemma {:induction false} TrimStartRun(w: string, b: string)
    requires IsBlank(w)
    requires b == [] || !IsSpace(b[0])
    ensures TrimStart(w + b) == b
    decreases |w|
  {
    if w != [] {
      assert (w + b)[1..] == w[1..] + b;
      TrimStartRun(w[1..], b);
    }
  }

  /** A text without whitespace is kept as it is. */
  lemma {:induction false} CollapseKeepsWords(s: string)
    requires NoSpace(s)
    ensures CollapseSpaces(s) == s
    decreases |s|
  {
    if s != [] {
      CollapseKeepsWords(s[1..]);
    }
  }

  /** A word, then a maximal run of whitespace, then the rest: the run
      becomes a single `-` and the word is kept. */
  lemma {:induction false} CollapseRun(a: string, w: string, b: string)
    requires NoSpace(a) && w != [] && IsBlank(w)
    requires b == [] || !IsSpace(b[0])
    ensures CollapseSpaces(a + w + b) == a + "-" + CollapseSpaces(b)
    decreases |a|
  {
    if a == [] {
      assert a + w + b == w + b;
      TrimStartRun(w, b);
    } else {
      assert (a + w + b)[1..] == a[1..] + w + b;
      CollapseRun(a[1..], w, b);
    }
  }

  /** The id derived from a label. */
  function DerivedId(labelText: string): string {
    CollapseSpaces(Lower(labelText))
  }

  /** A derived id contains no whitespace, and for a label without whitespace
      it is just the lower-cased label. */
  lemma DerivedIdSpec(labelText: string)
    ensures NoSpace(DerivedId(labelText))
    ensures NoSpace(labelText) ==> DerivedId(labelText) == Lower(labelText)
  {
    if NoSpace(labelText) {
      CollapseKeepsWords(Lower(labelText));
    }
  }

  /** A non-empty explicit id wins; otherwise the id is derived from the label. */
  function FieldId(id: Option<string>, labelText: string): (r: string)
    ensures Truthy(id) ==> r == id.value
    ensures !Truthy(id) ==> r == DerivedId(labelText) && NoSpace(r)
  {
    if Truthy(id) then id.value else DerivedId(labelText)
  }
}
