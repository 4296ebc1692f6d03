/** The header of a category page (app/categoria/components/CategoryHeader.tsx):
    the title made from the slug, and the toggle of the filter panel. */
module CategoryHeader {

  import opened Text

  /** The pieces of a split, each capitalised. */
  function CapitalizeAll(words: seq<string>): (r: seq<string>)
    ensures |r| == |words| && forall i :: 0 <= i < |words| ==> r[i] == Capitalize(words[i])
  {
    seq(|words|, i requires 0 <= i < |words| => Capitalize(words[i]))
  }

  /** `categoria.split("-").map(word => word.charAt(0).toUpperCase() + word.slice(1)).join(" ")`. */
  function Title(slug: string): string {
    Join(CapitalizeAll(Split(slug, '-')), " ")
  }

  /** The title character by character: a hyphen becomes a space, a character
      that starts a word is upper-cased, every other character is kept. */
  function TitleAt(slug: string): (r: string)
    ensures |r| == |slug|
  {
    seq(|slug|, i requires 0 <= i < |slug| =>
      if slug[i] == '-' then ' '
      else if i == 0 || slug[i - 1] == '-' then UpperChar(slug[i])
      else slug[i])
  }

  lemma TitleAtWord(a: string)
    requires '-' !in a
    ensures TitleAt(a) == Capitalize(a)
  {
  }

  lemma TitleAtConcat(a: string, b: string)
    requires '-' !in a
    ensures TitleAt(a + "-" + b) == Capitalize(a) + " " + TitleAt(b)
  {
    var s := a + "-" + b;
    var lhs := TitleAt(s);
    var rhs := Capitalize(a) + " " + TitleAt(b);
    assert |lhs| == |rhs|;
    forall i | 0 <= i < |s| ensures lhs[i] == rhs[i] {
      if i < |a| {
        assert s[i] == a[i];
        if i > 0 { assert s[i - 1] == a[i - 1]; }
      } else if i > |a| {
        assert s[i] == b[i - |a| - 1];
        assert s[i - 1] == if i == |a| + 1 then '-' else b[i - |a| - 2];
      }
    }
  }

  /** Joining capitalised pieces with spaces is the character-wise title of
      joining the pieces with hyphens. */
  lemma {:induction false} JoinCapitalized(xs: seq<string>)
    requires |xs| >= 1 && forall i :: 0 <= i < |xs| ==> '-' !in xs[i]
    ensures Join(CapitalizeAll(xs), " ") == TitleAt(Join(xs, "-"))
  {
    if |xs| == 1 {
      TitleAtWord(xs[0]);
    } else {
      JoinCapitalized(xs[1..]);
      assert CapitalizeAll(xs)[1..] == CapitalizeAll(xs[1..]);
      TitleAtConcat(xs[0], Join(xs[1..], "-"));
    }
  }

  /** The title is the slug with every hyphen turned into a space and every
      word's first character upper-cased; nothing else changes, and the title
      is as long as the slug. */
  lemma TitleIsCharacterwise(slug: string)
    ensures Title(slug) == TitleAt(slug)
    ensures |Title(slug)| == |slug|
    ensures forall i :: 0 <= i < |slug| && slug[i] == '-' ==> Title(slug)[i] == ' '
    ensures forall i :: 0 < i < |slug| && slug[i] != '-' && slug[i - 1] != '-' ==> Title(slug)[i] == slug[i]
  {
    JoinSplit(slug, '-');
    JoinCapitalized(Split(slug, '-'));
  }

  /** The title has one word per hyphen-separated piece, empty pieces included. */
  lemma TitleWordCount(slug: string)
    ensures |CapitalizeAll(Split(slug, '-'))| == CountChar(slug, '-') + 1
  {
    SplitCount(slug, '-');
  }

  /** The filter panel's open state. */
  class FilterPanel {
    var isFiltersOpen: bool

    constructor ()
      ensures !isFiltersOpen
    {
      isFiltersOpen := false;
    }

    /** The "Filtros" button. */
    method Toggle()
      modifies this
      ensures isFiltersOpen == !old(isFiltersOpen)
    {
      isFiltersOpen := !isFiltersOpen;
    }

    /** The filters are rendered exactly when the panel is open. */
    predicate ShowsFilters()
      reads this
    {
      isFiltersOpen
    }
  }

  /** Two clicks leave the panel as it was. */
  method ToggleTwice(panel: FilterPanel)
    modifies panel
    ensures panel.ShowsFilters() == old(panel.ShowsFilters())
  {
    panel.Toggle();
    panel.Toggle();
  }
}
