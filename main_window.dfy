/** MainWindow::addPerson (src/mainwindow.cpp): the name typed by the user has every
    space replaced by an underscore, an empty name is refused, and the name is added to
    the window's graph as a new vertex. The message boxes become the returned `Outcome`. */
module MainWindow {

  import opened Errors
  import opened Text
  import opened Graph

  /** `QString::replace(" ", "_")`: every space becomes an underscore. */
  function ReplaceSpaces(s: string): (r: string)
    ensures |r| == |s|
    ensures forall i :: 0 <= i < |s| ==> r[i] == (if s[i] == ' ' then '_' else s[i])
    ensures ' ' !in r
  {
    if s == [] then [] else [if s[0] == ' ' then '_' else s[0]] + ReplaceSpaces(s[1..])
  }

  /** Sanitising a sanitised name changes nothing. */
  lemma ReplaceSpacesIdempotent(s: string)
    ensures ReplaceSpaces(ReplaceSpaces(s)) == ReplaceSpaces(s)
  {
    var r := ReplaceSpaces(s);
    var rr := ReplaceSpaces(r);
    forall i | 0 <= i < |r| ensures rr[i] == r[i] {
      assert r[i] == (if s[i] == ' ' then '_' else s[i]);
    }
  }

  /** A sanitised name is one token of the saved file exactly when it is not empty and
      holds no whitespace besides spaces (a tab, for one, survives sanitising). */
  lemma SanitisedNameIsWord(s: string)
    ensures IsWord(ReplaceSpaces(s)) <==> s != [] && forall i :: 0 <= i < |s| ==> s[i] == ' ' || !IsWhitespace(s[i])
  {
    var r := ReplaceSpaces(s);
    if IsWord(r) {
      forall i | 0 <= i < |s| ensures s[i] == ' ' || !IsWhitespace(s[i]) {
        assert !IsWhitespace(r[i]);
      }
    }
    if s != [] && forall i :: 0 <= i < |s| ==> s[i] == ' ' || !IsWhitespace(s[i]) {
      forall i | 0 <= i < |r| ensures !IsWhitespace(r[i]) {
        assert r[i] == (if s[i] == ' ' then '_' else s[i]);
      }
    }
  }

  /** `addPerson`: sanitise the typed name, refuse it when empty, else add it as a vertex. */
  method AddPerson(g: Multigraph<string, real>, text: string) returns (r: Outcome)
    modifies g
    ensures text == [] ==> r == Fail(NamelessPerson) && g.vertexes == old(g.vertexes)
    ensures text != [] && ReplaceSpaces(text) in old(g.vertexes) ==> r == Fail(VertexExists) && g.vertexes == old(g.vertexes)
    ensures text != [] && ReplaceSpaces(text) !in old(g.vertexes) ==> r == Pass && g.vertexes == old(g.vertexes) + [ReplaceSpaces(text)]
    ensures g.edges == old(g.edges)
    ensures old(g.Valid()) ==> g.Valid()
  {
    var name := ReplaceSpaces(text);
    if name == [] {
      return Fail(NamelessPerson);
    }
    r := g.AddVertex(name);
  }

  /** A name of spaces only is not refused: it is added as underscores. */
  method AddBlankPerson(g: Multigraph<string, real>) returns (r: Outcome)
    requires g.vertexes == []
    modifies g
    ensures r == Pass && g.vertexes == ["__"]
  {
    r := AddPerson(g, "  ");
    assert ReplaceSpaces("  ") == "__";
  }
}
