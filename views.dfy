/** View-level values shared by several pages: the colour classes a status is shown in and
    the three states of a list region. */
module Views {

  /** The colour classes a status badge can take. */
  datatype Tone = Green | Yellow | Destructive | Subtle

  /** The CSS class of each colour. */
  function ToneClass(t: Tone): string {
    match t
    case Green => "text-green-600"
    case Yellow => "text-yellow-600"
    case Destructive => "text-destructive"
    case Subtle => "text-subtletext"
  }

  /** Distinct colours have distinct classes, so a class determines its colour. */
  lemma ToneClassInjective(t1: Tone, t2: Tone)
    ensures ToneClass(t1) == ToneClass(t2) <==> t1 == t2
  {
    if t1 != t2 {
      assert ToneClass(t1)[5] != ToneClass(t2)[5] || |ToneClass(t1)| != |ToneClass(t2)|;
    }
  }

  /** What a list region shows: nothing while loading, the items, or an empty-state text. */
  datatype Content<T> = Nothing | Listing(items: seq<T>) | EmptyState(message: string)
}
