/** What a search document is hashed from and what is indexed of it (agent/context/turn_document.py,
    agent/protocols/context.py): two different ways of joining the same three texts. */
module SearchTexts {
  datatype Parts = Parts(user: string, assistant: string, tool: string)

  // The text whose SHA-256 is the content hash; the hash is taken to be free of collisions.
  function Combined(p: Parts): string {
    p.user + "\n" + p.assistant + "\n" + p.tool
  }

  function JoinNonEmpty(a: string, b: string): string {
    if a == "" then b else if b == "" then a else a + "\n" + b
  }

  // The text that is indexed and embedded: only the parts that are not empty.
  function Searchable(p: Parts): string {
    JoinNonEmpty(JoinNonEmpty(p.user, p.assistant), p.tool)
  }

  // The same parts are empty.
  predicate SameGaps(p: Parts, q: Parts) {
    (p.user == "" <==> q.user == "") && (p.assistant == "" <==> q.assistant == "") && (p.tool == "" <==> q.tool == "")
  }

  // Only the assistant text is empty.
  predicate MiddleGap(p: Parts) {
    p.user != "" && p.assistant == "" && p.tool != ""
  }

  // How many separators of the combined text the indexed one leaves out at either end.
  function Front(p: Parts): nat {
    if p.user != "" then 0 else if p.assistant != "" then 1 else 2
  }

  function Back(p: Parts): nat {
    if p.tool != "" || (p.user == "" && p.assistant == "") then 0 else if p.assistant == "" then 2 else 1
  }

  // Without a gap in the middle the indexed text is the combined one less separators at the ends.
  lemma SearchableIsSlice(p: Parts)
    requires !MiddleGap(p)
    ensures Front(p) + Back(p) <= |Combined(p)|
    ensures Searchable(p) == Combined(p)[Front(p)..|Combined(p)| - Back(p)]
  {
    var c := Combined(p);
    if p.user == "" && p.assistant == "" {
      assert c == "\n\n" + p.tool;
    } else if p.user == "" {
      assert c == "\n" + p.assistant + "\n" + p.tool;
    } else if p.assistant == "" {
      assert c == p.user + "\n\n";
    }
  }

  /** Two versions of a document with the same hash and the same empty parts have the same indexed text, unless only
      the assistant text is empty. */
  lemma SameHashSameText(p: Parts, q: Parts)
    requires Combined(p) == Combined(q) && SameGaps(p, q) && !MiddleGap(p)
    ensures Searchable(p) == Searchable(q)
  {
    SearchableIsSlice(p);
    SearchableIsSlice(q);
  }

  /** Versions with different empty parts can share a hash and differ in their text. */
  lemma OtherGapsOtherText(x: string, c: char)
    requires x != "" && c != '\n'
    ensures
      var p, q := Parts(x + "\n", [c], ""), Parts(x, "", [c] + "\n");
      Combined(p) == Combined(q) && Searchable(p) != Searchable(q)
  {
    var p, q := Parts(x + "\n", [c], ""), Parts(x, "", [c] + "\n");
    assert Combined(p) == x + "\n\n" + [c] + "\n" == Combined(q);
    assert Searchable(p) == x + "\n" + "\n" + [c];
    assert Searchable(q) == x + "\n" + ([c] + "\n");
    assert Searchable(p)[|x| + 1] == '\n' && Searchable(q)[|x| + 1] == c;
  }

  /** So can versions that both lack only the assistant text. */
  lemma MiddleGapOtherText(x: string, c: char, z: string)
    requires x != "" && z != "" && c != '\n'
    ensures
      var p, q := Parts(x, "", [c] + "\n\n" + z), Parts(x + "\n\n" + [c], "", z);
      Combined(p) == Combined(q) && Searchable(p) != Searchable(q) && SameGaps(p, q)
  {
    var p, q := Parts(x, "", [c] + "\n\n" + z), Parts(x + "\n\n" + [c], "", z);
    assert Combined(p) == x + "\n\n" + [c] + "\n\n" + z == Combined(q);
    assert Searchable(p) == x + "\n" + ([c] + "\n\n" + z);
    assert Searchable(q) == x + "\n\n" + [c] + "\n" + z;
    assert Searchable(p)[|x| + 1] == c && Searchable(q)[|x| + 1] == '\n';
  }
}
