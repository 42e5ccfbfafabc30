/**
 * The state demo (src/bin/state.rs): an article moves between Draft, Approved
 * and Published. The article holds its current state in an `Option` field;
 * every public operation takes the state out and lets it decide the new state
 * and content. The three state structs become the constructors of `State`
 * and their trait methods one dispatching method, `Handle`.
 */
module ArticleState {
  import opened Wrappers

  datatype State = Draft | Approved | Published

  /** The three events the article reacts to; `edit` carries the new text. */
  datatype Op = Edit(text: string) | Approve | Publish

  /** Content and state of an article, as a value. */
  datatype Doc = Doc(content: string, state: State)

  /**
   * The transition table of the three state structs. Any edit stores the text
   * and goes back to Draft; approve reaches Approved from everywhere except
   * Published; publish reaches Published from everywhere except Draft.
   */
  function Step(d: Doc, op: Op): (r: Doc)
    ensures r.content == (if op.Edit? then op.text else d.content)
    ensures op.Edit? ==> r.state == Draft
    ensures op == Approve ==> (r.state == Approved <==> d.state != Published)
    ensures op == Approve ==> (r.state == Published <==> d.state == Published)
    ensures op == Publish ==> (r.state == Published <==> d.state != Draft)
    ensures op == Publish ==> (r.state == Draft <==> d.state == Draft)
  {
    match d.state
    case Draft =>
      (match op
       case Edit(text) => Doc(text, Draft)
       case Approve => Doc(d.content, Approved)
       case Publish => Doc(d.content, Draft))
    case Approved =>
      (match op
       case Edit(text) => Doc(text, Draft)
       case Approve => Doc(d.content, Approved)
       case Publish => Doc(d.content, Published))
    case Published =>
      (match op
       case Edit(text) => Doc(text, Draft)
       case Approve => Doc(d.content, Published)
       case Publish => Doc(d.content, Published))
  }

  /** The article after a whole sequence of operations, applied in order. */
  function Run(d: Doc, ops: seq<Op>): Doc
  {
    if ops == [] then d else Step(Run(d, ops[..|ops| - 1]), ops[|ops| - 1])
  }

  /** The text of the last edit in `ops`, if there is one. */
  function LastEdit(ops: seq<Op>): Option<string>
  {
    if ops == [] then None
    else if ops[|ops| - 1].Edit? then Some(ops[|ops| - 1].text)
    else LastEdit(ops[..|ops| - 1])
  }

  /** Approve and publish never touch the content: it is the text of the last edit. */
  lemma {:induction false} ContentIsLastEdit(d: Doc, ops: seq<Op>)
    ensures Run(d, ops).content == if LastEdit(ops).Some? then LastEdit(ops).value else d.content
  {
    if ops != [] {
      ContentIsLastEdit(d, ops[..|ops| - 1]);
    }
  }

  /** No operation after position `i` of `ops` is an edit. */
  predicate NoEditAfter(ops: seq<Op>, i: nat)
  {
    forall k :: i < k < |ops| ==> !ops[k].Edit?
  }

  /**
   * Starting from Draft, Approved needs an approve since the last edit, and
   * Published needs an approve since the last edit followed by a publish.
   */
  lemma {:induction false} PublishedNeedsApproval(content: string, ops: seq<Op>)
    ensures Run(Doc(content, Draft), ops).state == Approved ==>
      exists i :: 0 <= i < |ops| && ops[i] == Approve && NoEditAfter(ops, i)
    ensures Run(Doc(content, Draft), ops).state == Published ==>
      exists i, j :: 0 <= i < j < |ops| && ops[i] == Approve && ops[j] == Publish && NoEditAfter(ops, i)
  {
    if ops != [] {
      var init := ops[..|ops| - 1];
      var last := ops[|ops| - 1];
      var before := Run(Doc(content, Draft), init);
      PublishedNeedsApproval(content, init);
      var after := Step(before, last);
      if after.state == Approved {
        assert !last.Edit?;
        if before.state == Approved {
          var i :| 0 <= i < |init| && init[i] == Approve && NoEditAfter(init, i);
          assert ops[i] == Approve && NoEditAfter(ops, i);
        } else {
          assert last == Approve && NoEditAfter(ops, |ops| - 1);
        }
      }
      if after.state == Published {
        assert !last.Edit?;
        if before.state == Published {
          var i, j :| 0 <= i < j < |init| && init[i] == Approve && init[j] == Publish && NoEditAfter(init, i);
          assert ops[i] == Approve && ops[j] == Publish && NoEditAfter(ops, i);
        } else {
          assert before.state == Approved && last == Publish;
          var i :| 0 <= i < |init| && init[i] == Approve && NoEditAfter(init, i);
          assert ops[i] == Approve && ops[|ops| - 1] == Publish && NoEditAfter(ops, i);
        }
      }
    }
  }

  class Article {
    var content: string
    /** `None` only while a transition is running. */
    var state: Option<State>

    /** A new article is an empty draft. */
    constructor ()
      ensures content == "" && state == Some(Draft)
    {
      content := "";
      state := Some(Draft);
    }

    /** Takes the state out, as `Option::take` does, and lets it handle `op`. */
    method Dispatch(op: Op)
      modifies this
      ensures old(state).Some? ==> state.Some?
      ensures old(state).Some? ==>
        Doc(content, state.value) == Step(Doc(old(content), old(state).value), op)
      ensures old(state).None? ==> content == old(content) && state == None
    {
      var taken := state;
      state := None;
      if taken.Some? {
        Handle(taken.value, this, op);
      }
    }

    method SetContent(text: string)
      modifies this
      ensures old(state).Some? ==> state.Some?
      ensures old(state).Some? ==>
        Doc(content, state.value) == Step(Doc(old(content), old(state).value), Edit(text))
      ensures old(state).None? ==> content == old(content) && state == None
    {
      Dispatch(Edit(text));
    }

    method Approve()
      modifies this
      ensures old(state).Some? ==> state.Some?
      ensures old(state).Some? ==>
        Doc(content, state.value) == Step(Doc(old(content), old(state).value), Op.Approve)
      ensures old(state).None? ==> content == old(content) && state == None
    {
      Dispatch(Op.Approve);
    }

    method Publish()
      modifies this
      ensures old(state).Some? ==> state.Some?
      ensures old(state).Some? ==>
        Doc(content, state.value) == Step(Doc(old(content), old(state).value), Op.Publish)
      ensures old(state).None? ==> content == old(content) && state == None
    {
      Dispatch(Op.Publish);
    }
  }

  /**
   * The trait methods of the three state structs: each assigns the article's
   * new state and, for an edit, its content, through the borrowed article.
   */
  method Handle(s: State, article: Article, op: Op)
    modifies article
    ensures article.state.Some?
    ensures Doc(article.content, article.state.value) == Step(Doc(old(article.content), s), op)
  {
    match op
    case Edit(text) =>
      article.content := text;
      article.state := Some(Draft);
    case Approve =>
      article.state := Some(if s == Draft then Approved else s);
    case Publish =>
      article.state := Some(if s == Approved then Published else s);
  }

  /**
   * The demo in `main`: edit, approve, edit again, approve and publish end in
   * Published with the second text.
   */
  method StateDemo() returns (article: Article)
    ensures article.content == "Pattern state!!!" && article.state == Some(Published)
  {
    article := new Article();
    article.SetContent("Pattern state!");
    article.Approve();
    article.SetContent("Pattern state!!!");
    article.Approve();
    article.Publish();
  }
}
