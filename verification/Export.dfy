/** Paged export of a private history: the server's page query and the client's collecting loop. */
module Export {
  import opened Protocol

  const PAGE: nat := 50

  /** One command event; ids are UUIDs, taken as numbers. */
  datatype Row = Row(created: int, id: nat, command: string)

  predicate Below(r: Row, s: Row) {
    r.created < s.created || (r.created == s.created && r.id < s.id)
  }

  /** The owner's unexpired rows as ORDER BY created_at DESC, event_id DESC lists them, all keys distinct. */
  ghost predicate Descending(rows: seq<Row>) {
    forall i, j | 0 <= i < j < |rows| :: Below(rows[j], rows[i]) && rows[i].id != rows[j].id
  }

  // ---------- The server ----------

  /** The row a cursor names. */
  function Find(rows: seq<Row>, id: nat): Option<Row> {
    if rows == [] then None else if rows[0].id == id then Some(rows[0]) else Find(rows[1..], id)
  }

  /** WHERE: the rows below the bound, in order. */
  function RowsBelow(rows: seq<Row>, bound: Row): seq<Row> {
    if rows == [] then []
    else if Below(rows[0], bound) then [rows[0]] + RowsBelow(rows[1..], bound)
    else RowsBelow(rows[1..], bound)
  }

  /** The query of exportPage; None when the cursor names no row. */
  function Query(rows: seq<Row>, cursor: Option<nat>): Option<seq<Row>> {
    match cursor
    case None => Some(Limited(rows))
    case Some(id) =>
      match Find(rows, id)
      case None => None
      case Some(bound) => Some(Limited(RowsBelow(rows, bound)))
  }

  function Limited(rows: seq<Row>): seq<Row> {
    if |rows| > PAGE + 1 then rows[..PAGE + 1] else rows
  }

  datatype Page = Page(history: seq<Row>, next: Option<nat>)

  /** exportPage: append what the query yields, then keep one page and name its last row. */
  method ExportPage(rows: seq<Row>, cursor: Option<nat>) returns (page: Option<Page>)
    ensures page.None? <==> Query(rows, cursor).None?
    ensures page.Some? ==>
              var found := Query(rows, cursor).value;
              page.value == if |found| > PAGE then Page(found[..PAGE], Some(found[PAGE - 1].id)) else Page(found, None)
  {
    var found := Query(rows, cursor);
    if found.None? { return None; }
    var items: seq<Row> := [];
    for i := 0 to |found.value|
      invariant items == found.value[..i]
    {
      items := items + [found.value[i]];
    }
    var next := None;
    if |items| > PAGE {
      items := items[..PAGE];
      next := Some(items[PAGE - 1].id);
    }
    return Some(Page(items, next));
  }

  lemma {:induction false} FindAt(rows: seq<Row>, i: nat)
    requires Descending(rows) && i < |rows|
    ensures Find(rows, rows[i].id) == Some(rows[i])
  {
    if i > 0 {
      FindAt(rows[1..], i - 1);
    }
  }

  lemma {:induction false} AllBelow(rows: seq<Row>, bound: Row)
    requires forall i | 0 <= i < |rows| :: Below(rows[i], bound)
    ensures RowsBelow(rows, bound) == rows
  {
    if rows != [] {
      AllBelow(rows[1..], bound);
    }
  }

  /** The rows below one row are those listed after it. */
  lemma {:induction false} BelowAt(rows: seq<Row>, i: nat)
    requires Descending(rows) && i < |rows|
    ensures RowsBelow(rows, rows[i]) == rows[i + 1..]
  {
    if i == 0 {
      AllBelow(rows[1..], rows[0]);
    } else {
      assert Below(rows[i], rows[0]);
      BelowAt(rows[1..], i - 1);
    }
  }

  // ---------- The client against this server ----------

  /** How many requests n rows take. */
  function Requests(n: nat): nat {
    if n == 0 then 1 else (n + PAGE - 1) / PAGE
  }

  lemma NextPage(rows: seq<Row>, taken: nat)
    requires Descending(rows) && 0 < taken <= |rows|
    ensures Query(rows, Some(rows[taken - 1].id)) == Some(Limited(rows[taken..]))
  {
    FindAt(rows, taken - 1);
    BelowAt(rows, taken - 1);
  }

  /** collectPrivateExport over a table that does not change: every row once, in order, in the fewest requests, and
      no guard fires. */
  method Collect(rows: seq<Row>) returns (history: seq<Row>, requests: nat)
    requires Descending(rows)
    ensures history == rows && requests == Requests(|rows|)
  {
    history, requests := [], 0;
    var cursors: set<nat> := {};
    var cursor: Option<nat> := None;
    while true
      invariant |history| == PAGE * requests && |history| <= |rows| && history == rows[..|history|]
      invariant requests > 0 ==> |history| < |rows|
      invariant cursor == if requests == 0 then None else Some(rows[|history| - 1].id)
      invariant forall c | c in cursors :: exists i :: 0 <= i < |history| && rows[i].id == c
      decreases |rows| - |history|
    {
      ghost var taken := |history|;
      if taken > 0 { NextPage(rows, taken); }
      assert rows[0..] == rows;
      var page := ExportPage(rows, cursor);
      requests := requests + 1;
      history := history + page.value.history;
      assert page.value.next.Some? ==> |page.value.history| == PAGE && history == rows[..taken + PAGE];
      if page.value.next.None? {
        assert history == rows;
        break;
      }
      assert page.value.next.value == rows[taken + PAGE - 1].id;
      if page.value.next.value in cursors || page.value.history == [] {
        assert false;
      }
      cursors := cursors + {page.value.next.value};
      cursor := page.value.next;
    }
  }

  // ---------- The client against any server ----------

  /** What any server may answer; cursors are text. authorized: the session is current and the same. */
  datatype Answer = Answer(authorized: bool, rows: nat, next: Option<string>)

  datatype Outcome = Collecting | Collected | Unauthorized | Unavailable

  /** requests lists the cursors as sent; seen those the server has named. */
  datatype Client = Client(requests: seq<Option<string>>, seen: set<string>, cursor: Option<string>, rows: nat,
                           outcome: Outcome)

  const START := Client([], {}, None, 0, Collecting)

  /** The cursor that goes into the request: the empty text counts as none. */
  function Sent(cursor: Option<string>): Option<string> {
    if cursor.Some? && cursor.value != "" then cursor else None
  }

  /** One turn of the loop. */
  function Turn(c: Client, answer: Answer): Client {
    var asked := c.(requests := c.requests + [Sent(c.cursor)]);
    if !answer.authorized then asked.(outcome := Unauthorized)
    else
      var taken := asked.(rows := c.rows + answer.rows);
      match answer.next
      case None => taken.(outcome := Collected)
      case Some(next) =>
        if next in c.seen || answer.rows == 0 then taken.(outcome := Unavailable)
        else taken.(seen := c.seen + {next}, cursor := Some(next))
  }

  function Talk(answers: seq<Answer>): Client {
    if answers == [] then START
    else
      var before := Talk(answers[..|answers| - 1]);
      if before.outcome == Collecting then Turn(before, answers[|answers| - 1]) else before
  }

  ghost predicate NoRepeat(requests: seq<Option<string>>) {
    forall i, j | 0 <= i < j < |requests| :: requests[i] != requests[j]
  }

  /** The cursors of a conversation: after the first request, each is one the server has named. */
  ghost predicate Asked(c: Client) {
    && (forall i | 0 < i < |c.requests| ::
          (c.requests[i].Some? ==> c.requests[i].value in c.seen) && (c.requests[i].None? ==> "" in c.seen))
    && (c.requests != [] ==> c.requests[0].None?)
    && (c.requests == [] <==> c.cursor.None?  && c.outcome == Collecting)
    && (c.cursor.Some? ==> c.cursor.value in c.seen)
    && (c.cursor.Some? && c.outcome == Collecting ==>
          forall i | 0 < i < |c.requests| :: c.requests[i] != Sent(c.cursor))
    && (forall i, j | 0 < i < j < |c.requests| :: c.requests[i] != c.requests[j])
  }

  lemma {:induction false} TalkAsked(answers: seq<Answer>)
    ensures Asked(Talk(answers))
  {
    if answers != [] {
      TalkAsked(answers[..|answers| - 1]);
    }
  }

  /** Each later request is made of the cursor in the answer before it. */
  ghost predicate FollowUp(requests: seq<Option<string>>, answers: seq<Answer>) {
    && |requests| <= |answers|
    && forall i | 0 <= i < |requests| - 1 :: answers[i].next.Some? && requests[i + 1] == Sent(answers[i].next)
  }

  lemma FollowsUpMore(c: Client, answers: seq<Answer>, answer: Answer)
    requires FollowUp(c.requests, answers)
    requires c.outcome == Collecting ==> |c.requests| == |answers|
    requires c.outcome == Collecting && answers != [] ==> c.cursor == answers[|answers| - 1].next && c.cursor.Some?
    ensures FollowUp((if c.outcome == Collecting then Turn(c, answer) else c).requests, answers + [answer])
  {
    var requests := (if c.outcome == Collecting then Turn(c, answer) else c).requests;
    var more := answers + [answer];
    forall i | 0 <= i < |requests| - 1 ensures more[i].next.Some? && requests[i + 1] == Sent(more[i].next) {
      assert more[i] == answers[i];
    }
  }

  lemma {:induction false} AskedOfAnswers(answers: seq<Answer>)
    ensures var c := Talk(answers);
            && (c.outcome == Collecting ==> |c.requests| == |answers|)
            && (c.requests != [] ==> c.requests[0].None?)
            && (c.outcome == Collecting && answers != [] ==> c.cursor == answers[|answers| - 1].next && c.cursor.Some?)
            && FollowUp(c.requests, answers)
  {
    if answers != [] {
      var front := answers[..|answers| - 1];
      AskedOfAnswers(front);
      FollowsUpMore(Talk(front), front, answers[|answers| - 1]);
      assert front + [answers[|answers| - 1]] == answers;
    }
  }

  /** Against any server, no request after the first is ever sent twice; all requests differ exactly when the server
      named no empty cursor in an answer that was followed up. */
  lemma NeverAsksTwice(answers: seq<Answer>)
    ensures var requests := Talk(answers).requests;
            && |requests| <= |answers|
            && (forall i, j | 0 < i < j < |requests| :: requests[i] != requests[j])
            && (NoRepeat(requests) <==> forall i | 0 <= i < |requests| - 1 :: answers[i].next != Some(""))
  {
    TalkAsked(answers);
    AskedOfAnswers(answers);
    var requests := Talk(answers).requests;
    forall i | 0 <= i < |requests| - 1 ensures requests[i + 1] != requests[0] <==> answers[i].next != Some("") {
    }
    if !NoRepeat(requests) {
      var i, j :| 0 <= i < j < |requests| && requests[i] == requests[j];
      assert i == 0 && answers[j - 1].next == Some("");
    }
  }

  /** The empty cursor is taken for none: a server that names it is asked for its first page again. */
  lemma EmptyCursorRepeats()
    ensures !NoRepeat(Talk([Answer(true, 1, Some("")), Answer(true, 1, None)]).requests)
  {
    var one := [Answer(true, 1, Some(""))];
    var two := [Answer(true, 1, Some("")), Answer(true, 1, None)];
    assert one[..0] == [] && two[..1] == one;
    var first := Talk(one);
    assert Talk([]) == START && first == Turn(START, one[0]);
    assert Talk(two) == Turn(first, two[1]);
    assert Talk(two).requests == [None, None];
    assert Talk(two).requests[0] == Talk(two).requests[1];
  }

  /** The answer leads to a further request: it is from the same session, has rows, and names a cursor not named
      before. */
  ghost predicate GoesOn(answers: seq<Answer>, i: nat)
    requires i < |answers|
  {
    && answers[i].authorized && answers[i].rows > 0 && answers[i].next.Some?
    && forall j | 0 <= j < i :: answers[j].next != answers[i].next
  }

  function Ending(answer: Answer): Outcome {
    if !answer.authorized then Unauthorized else if answer.next.None? then Collected else Unavailable
  }

  /** The rows of the answers that were from the same session. */
  function RowsOf(answers: seq<Answer>): nat {
    if answers == [] then 0
    else
      var last := answers[|answers| - 1];
      RowsOf(answers[..|answers| - 1]) + if last.authorized then last.rows else 0
  }

  /** Against any server: the client goes on exactly as long as every answer leads to a further request. The first that
      does not ends it, and says how: unauthorized if the session is another, collected if there is no cursor, and
      otherwise unavailable, for a cursor named before or a page without rows. What it has collected are the rows it
      was given. */
  lemma {:induction false} StopsAtFirst(answers: seq<Answer>)
    ensures var c := Talk(answers);
            && |c.requests| <= |answers| && c.rows == RowsOf(answers[..|c.requests|])
            && (forall i | 0 <= i < |c.requests| - 1 :: GoesOn(answers, i))
            && (c.outcome == Collecting <==> forall i | 0 <= i < |answers| :: GoesOn(answers, i))
            && (c.outcome == Collecting ==>
                |c.requests| == |answers| && forall t :: t in c.seen <==> Named(answers, t))
            && (c.outcome != Collecting ==>
                && c.requests != [] && !GoesOn(answers, |c.requests| - 1)
                && c.outcome == Ending(answers[|c.requests| - 1]))
  {
    if answers != [] {
      var front, last := answers[..|answers| - 1], answers[|answers| - 1];
      var before, c := Talk(front), Talk(answers);
      StopsAtFirst(front);
      assert front + [last] == answers;
      forall i | 0 <= i < |front| ensures GoesOn(front, i) <==> GoesOn(answers, i) {
        GoesOnFront(answers, i);
      }
      assert answers[..|before.requests|] == front[..|before.requests|];
      if before.outcome == Collecting {
        assert answers[..|answers|] == answers && front[..|front|] == front;
        LastAnswer(answers, before);
      }
    }
  }

  ghost predicate Named(answers: seq<Answer>, text: string) {
    exists j :: 0 <= j < |answers| && answers[j].next == Some(text)
  }

  lemma GoesOnFront(answers: seq<Answer>, i: nat)
    requires i < |answers| - 1
    ensures GoesOn(answers[..|answers| - 1], i) <==> GoesOn(answers, i)
  {
    var front := answers[..|answers| - 1];
    assert forall j | 0 <= j <= i :: front[j] == answers[j];
  }

  lemma LastAnswer(answers: seq<Answer>, before: Client)
    requires answers != [] && forall t :: t in before.seen <==> Named(answers[..|answers| - 1], t)
    requires before.outcome == Collecting
    ensures var c := Turn(before, answers[|answers| - 1]);
            && (c.outcome == Collecting <==> GoesOn(answers, |answers| - 1))
            && (c.outcome == Collecting ==> forall t :: t in c.seen <==> Named(answers, t))
            && (c.outcome != Collecting ==> c.outcome == Ending(answers[|answers| - 1]))
            && c.requests == before.requests + [Sent(before.cursor)]
            && c.rows == before.rows + if answers[|answers| - 1].authorized then answers[|answers| - 1].rows else 0
  {
    var front, last := answers[..|answers| - 1], answers[|answers| - 1];
    forall t ensures Named(answers, t) <==> Named(front, t) || last.next == Some(t) {
      if Named(front, t) {
        var j :| 0 <= j < |front| && front[j].next == Some(t);
        assert answers[j].next == Some(t);
      }
      if last.next == Some(t) { assert answers[|answers| - 1].next == Some(t); }
    }
    if last.next.Some? {
      assert Named(front, last.next.value) <==> exists j :: 0 <= j < |front| && answers[j].next == last.next by {
        assert forall j | 0 <= j < |front| :: front[j] == answers[j];
      }
    }
  }
}
