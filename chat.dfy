/** The transcript both copies keep in the session, and the texts their quick-action buttons send. */
module Chat {
  import opened Text

  /** A `{"role": ..., ...}` entry: the user's text, or an assistant reply of type `R`. */
  datatype Message<R> = User(text: string) | Assistant(reply: R)

  /** What the "Book a Table" button sends (colab_app.py:959, streamlit_app.py:515). */
  const BookText: string := "I want to book a table"
  /** What the "Manage Reservations" button sends (colab_app.py:964, streamlit_app.py:518). */
  const ManageText: string := "I want to manage my reservations"

  /** "manage" occurs in the lower-cased "Manage Reservations" text. */
  lemma ManageWordInManageText()
    ensures OccursAt(Lower(ManageText), "manage", 10)
  {
    var p, k, q := "I want to ", "manage", " my reservations";
    assert ManageText == p + k + q;
    LowerConcat(p + k, q);
    LowerConcat(p, k);
    LowerOfNoUpper(k);
    OccursInMiddle(Lower(p), k, Lower(q));
  }
}
