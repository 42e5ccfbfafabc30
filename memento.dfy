/**
 * The memento demo (src/bin/memento.rs): an article keeps its current content
 * and a stack of mementos holding earlier contents; setting new content saves
 * the old one, and undo restores the most recent saved content.
 */
module Memento {
  import opened Wrappers

  /** A saved content. */
  datatype MementoArticle = MementoArticle(state: string)
  {
    /** `get_state`: hands back exactly the saved content, from which the memento is rebuilt. */
    function GetState(): (s: string)
      ensures MementoArticle(s) == this
    {
      state
    }
  }

  /** Content and memento stack of an article, as a value; the top of the stack is last. */
  datatype Snapshot = Snapshot(content: Option<string>, mementos: seq<MementoArticle>)

  /** Without content there is nothing to go back to. */
  predicate Valid(s: Snapshot)
  {
    s.content.None? ==> s.mementos == []
  }

  /** `set_content`: the previous content, if any, is saved on top of the stack. */
  function AfterSet(s: Snapshot, text: string): (r: Snapshot)
    ensures r.content == Some(text) && Valid(r)
    ensures |r.mementos| == |s.mementos| + (if s.content.Some? then 1 else 0)
    ensures r.mementos[..|s.mementos|] == s.mementos
    ensures s.content.Some? ==> r.mementos[|s.mementos|] == MementoArticle(s.content.value)
  {
    Snapshot(Some(text), s.mementos + if s.content.Some? then [MementoArticle(s.content.value)] else [])
  }

  /** `undo`: pops the top memento into the content, or clears the content when the stack is empty. */
  function AfterUndo(s: Snapshot): (r: Snapshot)
    ensures Valid(r)
    ensures s.mementos == [] ==> r.content == None && r.mementos == []
    ensures s.mementos != [] ==> r.content.Some? && r.mementos + [MementoArticle(r.content.value)] == s.mementos
  {
    if s.mementos == [] then Snapshot(None, [])
    else Snapshot(Some(s.mementos[|s.mementos| - 1].GetState()), s.mementos[..|s.mementos| - 1])
  }

  /** Undo right after setting content restores the article exactly. */
  lemma SetThenUndo(s: Snapshot, text: string)
    requires Valid(s)
    ensures AfterUndo(AfterSet(s, text)) == s
  {
    var t := AfterSet(s, text);
    if s.content.Some? {
      assert t.mementos[..|t.mementos| - 1] == s.mementos;
    }
  }

  /** Setting each text of `texts` in order. */
  function SetAll(s: Snapshot, texts: seq<string>): Snapshot
  {
    if texts == [] then s else AfterSet(SetAll(s, texts[..|texts| - 1]), texts[|texts| - 1])
  }

  /** Undoing `n` times. */
  function UndoTimes(s: Snapshot, n: nat): Snapshot
    decreases n
  {
    if n == 0 then s else UndoTimes(AfterUndo(s), n - 1)
  }

  /** Undoing as many times as contents were set goes back to where the article started. */
  lemma {:induction false} UndoAllSets(s: Snapshot, texts: seq<string>)
    requires Valid(s)
    ensures UndoTimes(SetAll(s, texts), |texts|) == s
  {
    if texts != [] {
      var init := texts[..|texts| - 1];
      var before := SetAll(s, init);
      if init != [] {
        assert Valid(before);
      }
      SetThenUndo(before, texts[|texts| - 1]);
      UndoAllSets(s, init);
    }
  }

  class Article {
    var content: Option<string>
    var mementos: seq<MementoArticle>

    function Snap(): Snapshot
      reads this
    {
      Snapshot(content, mementos)
    }

    /** A new article has no content and no history. */
    constructor ()
      ensures content == None && mementos == []
    {
      content := None;
      mementos := [];
    }

    method Undo()
      modifies this
      ensures Snap() == AfterUndo(old(Snap()))
    {
      if mementos != [] {
        var memento := mementos[|mementos| - 1];
        mementos := mementos[..|mementos| - 1];
        content := Some(memento.GetState());
      } else {
        content := None;
      }
    }

    /** Reads the content; changes nothing. */
    method GetContent() returns (c: Option<string>)
      ensures c == content
    {
      c := content;
    }

    method SetContent(text: string)
      modifies this
      ensures Snap() == AfterSet(old(Snap()), text)
    {
      if content.Some? {
        mementos := mementos + [MementoArticle(content.value)];
      }
      content := Some(text);
    }
  }

  /** The demo in `main`: the eight contents it reads, in order. */
  method MementoDemo() returns (trace: seq<Option<string>>)
    ensures trace == [None, Some("First content"), Some("Second content"), Some("First content"),
                      None, None, Some("Third content"), None]
  {
    var article := new Article();
    var c0 := article.GetContent();
    article.SetContent("First content");
    var c1 := article.GetContent();
    article.SetContent("Second content");
    var c2 := article.GetContent();
    article.Undo();
    var c3 := article.GetContent();
    article.Undo();
    var c4 := article.GetContent();
    article.Undo();
    var c5 := article.GetContent();
    article.SetContent("Third content");
    var c6 := article.GetContent();
    article.Undo();
    var c7 := article.GetContent();
    trace := [c0, c1, c2, c3, c4, c5, c6, c7];
  }
}
