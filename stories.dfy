/** The story endpoints over the `stories` table: `submit_story`,
    `moderate_story` and `get_stats`. The table is a map from id to record;
    ids are handed out like SQLite's AUTOINCREMENT, one past the last id
    used. Real-time notifications go through the connection manager, whose
    delivery log records them. Clock readings are parameters. */
module Stories {
  import opened Text
  import Themes
  import opened Transformer
  import opened Connections

  datatype Status = Pending | Approved | Rejected

  /** A row of the `stories` table. */
  datatype Story = Story(
    id: int,
    originalText: string,
    transformedText: string,
    authorName: Option<string>,
    status: Status,
    createdAt: nat,
    moderatedAt: Option<nat>,
    moderatedBy: Option<string>,
    emojiTheme: Themes.Theme,
    emojiData: Themes.ThemeData)

  /** The two WebSocket events of the server. */
  datatype Message =
    | NewSubmission(id: int, originalText: string, transformedText: string, author: Option<string>, createdAt: nat)
    | NewStory(id: int, text: string, author: Option<string>, createdAt: nat, emojiThemeData: Themes.ThemeData)

  /** The outcomes of `submit_story`: saved for moderation; returned with
      status "rejected" and not saved; HTTP 400 for too short a text;
      HTTP 500 when the transformation raised. */
  datatype SubmitReply =
    | Saved(id: int, transformedText: string, emojiTheme: Themes.ThemeData)
    | NotSaved(transformedText: string)
    | TooShort
    | TransformError

  /** The outcomes of `moderate_story`: success, HTTP 400, HTTP 404. */
  datatype ModerateReply = Moderated(action: string) | InvalidAction | NotFound

  datatype Stats = Stats(total: nat, approved: nat, pending: nat, rejected: nat)

  /** Texts whose stripped length is below this are refused. */
  const MinLength: nat := 10

  /** `SELECT COUNT(*) ... WHERE status = s`. */
  function CountStatus(m: map<int, Story>, s: Status): nat {
    |set id | id in m && m[id].status == s|
  }

  /** Every row has one of the three statuses, so they partition the table. */
  lemma StatusPartition(m: map<int, Story>)
    ensures |m| == CountStatus(m, Pending) + CountStatus(m, Approved) + CountStatus(m, Rejected)
  {
    var p := set id | id in m && m[id].status == Pending;
    var a := set id | id in m && m[id].status == Approved;
    var r := set id | id in m && m[id].status == Rejected;
    forall k | k in m.Keys
      ensures k in p + a + r
    {
      match m[k].status
      case Pending => assert k in p;
      case Approved => assert k in a;
      case Rejected => assert k in r;
    }
    assert m.Keys == p + a + r;
    assert p !! a && (p + a) !! r;
    assert |p + a| == |p| + |a|;
  }

  /** Inserting a new row adds one to its status's count only. */
  lemma CountAfterInsert(m: map<int, Story>, id: int, row: Story, s: Status)
    requires id !in m
    ensures CountStatus(m[id := row], s) == CountStatus(m, s) + (if row.status == s then 1 else 0)
  {
    var before := set k | k in m && m[k].status == s;
    var m' := m[id := row];
    var after := set k | k in m' && m'[k].status == s;
    assert forall k :: k in m' <==> k in m || k == id;
    assert forall k :: k in m ==> m'[k] == m[k];
    if row.status == s {
      assert after == before + {id};
      assert id !in before;
    } else {
      assert after == before;
    }
  }

  /** Overwriting a row moves one unit from its old status to its new one. */
  lemma CountAfterUpdate(m: map<int, Story>, id: int, row: Story, s: Status)
    requires id in m
    ensures CountStatus(m[id := row], s)
         == CountStatus(m, s) - (if m[id].status == s then 1 else 0) + (if row.status == s then 1 else 0)
  {
    var rest := m - {id};
    CountAfterInsert(rest, id, row, s);
    CountAfterInsert(rest, id, m[id], s);
    assert rest[id := row] == m[id := row];
    assert rest[id := m[id]] == m;
  }

  /** The two actions a moderator may take. */
  predicate ValidAction(action: string) {
    action == "approve" || action == "reject"
  }

  /** The status written by a valid moderation action. */
  function NewStatus(action: string): (s: Status)
    requires ValidAction(action)
    ensures s == Approved <==> action == "approve"
    ensures s == Rejected <==> action == "reject"
  {
    if action == "approve" then Approved else Rejected
  }

  /** Every row is stored under its own id, and no id exceeds the last one
      handed out. */
  ghost predicate ValidTable(m: map<int, Story>, lastId: nat) {
    forall id :: id in m ==> m[id].id == id && 1 <= id <= lastId
  }

  /** A row stored under the next id keeps the table valid, and that id
      was free. */
  lemma InsertKeepsValid(m: map<int, Story>, lastId: nat, row: Story)
    requires ValidTable(m, lastId) && row.id == lastId + 1
    ensures row.id !in m
    ensures ValidTable(m[row.id := row], lastId + 1)
  {
  }

  /** Rewriting the fields of an existing row other than its id keeps the
      table valid. */
  lemma UpdateKeepsValid(m: map<int, Story>, lastId: nat, id: int, row: Story)
    requires ValidTable(m, lastId) && id in m && row.id == m[id].id
    ensures ValidTable(m[id := row], lastId)
  {
  }

  class StoryService {
    var stories: map<int, Story>
    /** The largest id handed out so far. */
    var lastId: nat
    const manager: ConnectionManager<Message>

    ghost predicate Valid()
      reads this
    {
      ValidTable(stories, lastId)
    }

    constructor (manager: ConnectionManager<Message>)
      ensures Valid() && stories == map[] && lastId == 0 && this.manager == manager
    {
      stories := map[];
      lastId := 0;
      this.manager := manager;
    }

    /** `get_stats`: counts by status; the total is their sum. */
    function GetStats(): (s: Stats)
      reads this
      ensures s.total == |stories|
      ensures s.total == s.pending + s.approved + s.rejected
      ensures s.approved == |set id | id in stories && stories[id].status == Approved|
      ensures s.pending == |set id | id in stories && stories[id].status == Pending|
      ensures s.rejected == |set id | id in stories && stories[id].status == Rejected|
    {
      StatusPartition(stories);
      Stats(|stories|, CountStatus(stories, Approved), CountStatus(stories, Pending), CountStatus(stories, Rejected))
    }

    /** `submit_story`. Too short a text is refused before any
        transformation; a failed transformation saves nothing and notifies
        nobody; a successful one saves exactly one pending row, themed from
        the original text, and sends one `new_submission` event to each
        moderator. */
    method SubmitStory(text: string, authorName: Option<string>, style: Option<string>,
                       model: Prompt -> CallOutcome, parse: string -> ParseOutcome,
                       now: nat, failing: set<ConnId>)
      returns (reply: SubmitReply)
      requires Valid()
      modifies this, manager
      ensures Valid()
      ensures manager.active == old(manager.active) && manager.moderators == old(manager.moderators)
      ensures |Strip(text)| < MinLength ==> reply == TooShort
      ensures |Strip(text)| >= MinLength ==>
        match GenerateEnhanced(text, style, model, parse)
        case StyleKeyMissing => reply == TransformError
        case Generated(r) =>
          if r.success then reply.Saved? && reply.transformedText == r.transformedText
          else reply == NotSaved(r.transformedText)
      ensures !reply.Saved? ==>
        stories == old(stories) && lastId == old(lastId) && manager.deliveries == old(manager.deliveries)
      ensures reply.Saved? ==>
        && reply.id == old(lastId) + 1 == lastId
        && reply.id !in old(stories)
        && reply.emojiTheme == Themes.GetEmojiTheme(text)
        && stories == old(stories)[reply.id := Story(reply.id, text, reply.transformedText, authorName,
                                                     Pending, now, None, None,
                                                     reply.emojiTheme.theme, reply.emojiTheme)]
        && manager.deliveries == old(manager.deliveries)
             + Attempts(old(manager.moderators),
                        NewSubmission(reply.id, text, reply.transformedText, authorName, now), failing)
    {
      if |Strip(text)| < MinLength {
        return TooShort;
      }
      var g := GenerateEnhanced(text, style, model, parse);
      if g.StyleKeyMissing? {
        return TransformError;
      }
      var result := g.result;
      if !result.success {
        return NotSaved(result.transformedText);
      }
      var emojiTheme := Themes.GetEmojiTheme(text);
      var id := lastId + 1;
      var row := Story(id, text, result.transformedText, authorName, Pending, now, None, None,
                       emojiTheme.theme, emojiTheme);
      InsertKeepsValid(stories, lastId, row);
      stories := stories[id := row];
      lastId := id;
      manager.NotifyModerators(NewSubmission(id, text, result.transformedText, authorName, now), failing);
      reply := Saved(id, result.transformedText, emojiTheme);
    }

    /** `moderate_story`. An unknown action or id is an error and changes
        nothing; otherwise the status, moderation time and moderator are
        written (whatever the row's previous status), and only an approval
        broadcasts a `new_story` event carrying the transformed text to
        each display. */
    method ModerateStory(storyId: int, action: string, moderatorName: Option<string>,
                         now: nat, failing: set<ConnId>)
      returns (reply: ModerateReply)
      requires Valid()
      modifies this, manager
      ensures Valid() && lastId == old(lastId)
      ensures manager.active == old(manager.active) && manager.moderators == old(manager.moderators)
      ensures !ValidAction(action) ==> reply == InvalidAction
      ensures ValidAction(action) && storyId !in old(stories) ==> reply == NotFound
      ensures ValidAction(action) && storyId in old(stories) ==> reply == Moderated(action)
      ensures !reply.Moderated? ==> stories == old(stories) && manager.deliveries == old(manager.deliveries)
      ensures reply.Moderated? ==>
        && ValidAction(action) && storyId in old(stories) && reply.action == action
        && stories == old(stories)[storyId := old(stories)[storyId].(status := NewStatus(action),
                                                                     moderatedAt := Some(now),
                                                                     moderatedBy := moderatorName)]
      ensures reply.Moderated? && action == "approve" ==>
        var row := old(stories)[storyId];
        manager.deliveries == old(manager.deliveries)
          + Attempts(old(manager.active),
                     NewStory(storyId, row.transformedText, row.authorName, row.createdAt, row.emojiData), failing)
      ensures action != "approve" ==> manager.deliveries == old(manager.deliveries)
    {
      if !ValidAction(action) {
        return InvalidAction;
      }
      if storyId !in stories {
        return NotFound;
      }
      var updated := stories[storyId].(status := NewStatus(action), moderatedAt := Some(now),
                                       moderatedBy := moderatorName);
      UpdateKeepsValid(stories, lastId, storyId, updated);
      stories := stories[storyId := updated];
      if action == "approve" {
        manager.Broadcast(NewStory(storyId, updated.transformedText, updated.authorName,
                                   updated.createdAt, updated.emojiData), failing);
      }
      reply := Moderated(action);
    }
  }

  /** Moderation moves one row out of its old status into the new one;
      nothing guards against moderating a row that is no longer pending. */
  lemma ModerationMovesOneRow(m: map<int, Story>, id: int, action: string, moderator: Option<string>, now: nat)
    requires id in m && ValidAction(action)
    ensures var m' := m[id := m[id].(status := NewStatus(action), moderatedAt := Some(now), moderatedBy := moderator)];
      && |m'| == |m|
      && CountStatus(m', NewStatus(action))
         == CountStatus(m, NewStatus(action)) + (if m[id].status == NewStatus(action) then 0 else 1)
      && (m[id].status == Pending ==>
            CountStatus(m', Pending) == CountStatus(m, Pending) - 1)
  {
    var row := m[id].(status := NewStatus(action), moderatedAt := Some(now), moderatedBy := moderator);
    CountAfterUpdate(m, id, row, NewStatus(action));
    CountAfterUpdate(m, id, row, Pending);
    assert m[id := row].Keys == m.Keys;
  }
}
