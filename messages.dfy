/**
 * The chat page (src/pages/Messages.tsx): the signed-in user's matches,
 * the selected conversation, the draft, the locally held credit count and
 * the credit-metered send.
 */
module MessagesPage {
  import opened Wrappers
  import opened Rows
  import opened Text
  import opened Backend

  /** What the send button does with the page's state, before any call is made. */
  datatype SendGuard = Ignored | OutOfCredits | Proceeds

  /** The two guards of `sendMessage`, in their order. */
  function Guard(draft: string, selected: Option<Id>, user: Option<Id>, credits: int): (g: SendGuard)
    ensures g == Proceeds <==> !Blank(draft) && selected.Some? && user.Some? && credits > 0
    ensures g == OutOfCredits <==> !Blank(draft) && selected.Some? && user.Some? && credits <= 0
  {
    if Blank(draft) || selected.None? || user.None? then Ignored
    else if credits <= 0 then OutOfCredits
    else Proceeds
  }

  class Page {
    const user: Option<Id>
    var matches: seq<Match>
    var selectedMatch: Option<Id>
    var messages: seq<Message>
    var newMessage: string
    var credits: int
    var loading: bool

    constructor (user: Option<Id>)
      ensures this.user == user
      ensures matches == [] && selectedMatch == None && messages == []
      ensures newMessage == "" && credits == 0 && !loading
    {
      this.user := user;
      matches, selectedMatch, messages := [], None, [];
      newMessage, credits, loading := "", 0, false;
    }

    /** `fetchCredits`: a returned row replaces the count; anything else keeps it. */
    method FetchCredits(store: Store, reachable: bool)
      requires user.Some?
      modifies this`credits
      ensures credits == match ReadBalance(store.tables.credits, user.value, reachable)
                         case Found(b) => b
                         case Error(_) => old(credits)
    {
      var r := ReadBalance(store.tables.credits, user.value, reachable);
      if r.Found? {
        credits := r.row;
      }
    }

    /** `fetchMatches`: the user's own match rows, or no change on error. */
    method FetchMatches(store: Store, reachable: bool)
      requires user.Some?
      modifies this`matches
      ensures reachable ==> matches == MatchesOf(store.tables.matches, user.value)
      ensures !reachable ==> matches == old(matches)
    {
      if reachable {
        matches := MatchesOf(store.tables.matches, user.value);
      }
    }

    /** Clicking a match in the sidebar. */
    method SelectMatch(matchId: Id)
      modifies this`selectedMatch
      ensures selectedMatch == Some(matchId)
    {
      selectedMatch := Some(matchId);
    }

    method EditDraft(text: string)
      modifies this`newMessage
      ensures newMessage == text
    {
      newMessage := text;
    }

    /**
     * `fetchMessages`: the selected conversation's rows in ascending
     * `created_at` order; without a selection or on error, no change.
     */
    method FetchMessages(store: Store, reachable: bool)
      requires store.Valid()
      modifies this`messages
      ensures selectedMatch.Some? && reachable ==> messages == MessagesOf(store.tables.messages, selectedMatch.value)
      ensures selectedMatch.Some? && reachable ==> Ascending(messages)
      ensures selectedMatch.None? || !reachable ==> messages == old(messages)
    {
      if selectedMatch.Some? && reachable {
        ConversationInTimeOrder(store.tables.messages, selectedMatch.value);
        messages := MessagesOf(store.tables.messages, selectedMatch.value);
      }
    }

    /**
     * The realtime INSERT handler: the pushed row goes to the end of the
     * list. The handler itself does not compare the row with the current
     * selection.
     */
    method OnRealtimeInsert(row: Message)
      modifies this`messages
      ensures messages == old(messages) + [row]
    {
      messages := messages + [row];
    }

    /** The three page fields `sendMessage` updates. */
    function ComposerState(): Composer
      reads this
    {
      Composer(newMessage, credits, loading)
    }

    /**
     * `sendMessage`. `insertOk` and `debitOk` are the outcomes of the
     * message insert and of the credits update.
     */
    method SendMessage(store: Store, insertOk: bool, debitOk: bool)
      requires store.Valid()
      modifies this`newMessage, this`credits, this`loading, store
      ensures store.Valid()
      ensures (WorldOf(store), ComposerState())
           == Send(old(WorldOf(store)), old(ComposerState()), selectedMatch, user, insertOk, debitOk)
    {
      if Guard(newMessage, selectedMatch, user, credits) == Proceeds {
        loading := true;
        var me, conversation := user.value, selectedMatch.value;
        store.InsertMessage(conversation, me, newMessage, Some(false), insertOk);
        if insertOk {
          var debited := store.UpdateBalance(me, Some(credits - 1), debitOk);
          if debited {
            credits := credits - 1;
          }
          newMessage := "";
        }
        loading := false;
      }
    }
  }

  /** The backend state a send reads and writes. */
  datatype World = World(tables: Tables, nextId: Id, clock: nat)

  function WorldOf(store: Store): World
    reads store
  {
    World(store.tables, store.nextId, store.clock)
  }

  /** The draft, the locally held credit count and the busy flag. */
  datatype Composer = Composer(newMessage: string, credits: int, loading: bool)

  /** The row a send that passes its guards inserts. */
  function SentRow(w: World, c: Composer, conversation: Id, me: Id): Message {
    Message(w.nextId, conversation, me, c.newMessage, w.clock, Some(false))
  }

  /** The effect of `sendMessage` on the backend and on the page. */
  function Send(w: World, c: Composer, selected: Option<Id>, user: Option<Id>, insertOk: bool, debitOk: bool)
    : (World, Composer)
  {
    if Guard(c.newMessage, selected, user, c.credits) != Proceeds then (w, c)
    else if !insertOk then (w, c.(loading := false))
    else
      var row := SentRow(w, c, selected.value, user.value);
      var t := w.tables.(messages := w.tables.messages + [row]);
      if debitOk then
        (World(t.(credits := SetBalance(t.credits, user.value, c.credits - 1)), w.nextId + 1, w.clock + 1),
         Composer("", c.credits - 1, false))
      else
        (World(t, w.nextId + 1, w.clock + 1), Composer("", c.credits, false))
  }

  /** A blank draft, no selected match or no user: nothing changes, not even `loading`. */
  lemma SendIgnoresIncompleteInput(w: World, c: Composer, selected: Option<Id>, user: Option<Id>, insertOk: bool, debitOk: bool)
    requires Blank(c.newMessage) || selected.None? || user.None?
    ensures Send(w, c, selected, user, insertOk, debitOk) == (w, c)
  {
  }

  /** With no local credit left, no message is inserted and no balance is written. */
  lemma SendRefusedWithoutCredit(w: World, c: Composer, selected: Option<Id>, user: Option<Id>, insertOk: bool, debitOk: bool)
    requires c.credits <= 0
    ensures Send(w, c, selected, user, insertOk, debitOk).0 == w
    ensures Send(w, c, selected, user, insertOk, debitOk).1 == c
  {
  }

  /** A failed insert: no row, no debit, the draft kept for a retry, `loading` cleared. */
  lemma SendFailedInsertKeepsDraft(w: World, c: Composer, selected: Option<Id>, user: Option<Id>, debitOk: bool)
    requires Guard(c.newMessage, selected, user, c.credits) == Proceeds
    ensures Send(w, c, selected, user, false, debitOk) == (w, c.(loading := false))
  {
  }

  /**
   * A successful insert adds exactly one message: in the selected match,
   * from the user, with the draft as typed (untrimmed), not an admin
   * reply. The draft is cleared and `loading` is false whether or not the
   * debit went through, and the conversation as fetched ends with the row.
   */
  lemma SendAppendsOneMessage(w: World, c: Composer, selected: Option<Id>, user: Option<Id>, debitOk: bool)
    requires Guard(c.newMessage, selected, user, c.credits) == Proceeds
    ensures var (w', c') := Send(w, c, selected, user, true, debitOk);
      && w'.tables.messages == w.tables.messages + [Message(w.nextId, selected.value, user.value, c.newMessage, w.clock, Some(false))]
      && w'.tables.profiles == w.tables.profiles && w'.tables.matches == w.tables.matches
      && MessagesOf(w'.tables.messages, selected.value)
         == MessagesOf(w.tables.messages, selected.value) + [SentRow(w, c, selected.value, user.value)]
      && c'.newMessage == "" && !c'.loading
  {
    FilterAppend(w.tables.messages, SentRow(w, c, selected.value, user.value),
                 (m: Message) => m.matchId == selected.value);
  }

  /**
   * The debit is a blind write of the page's own count minus one, and the
   * page's count drops by one only when that write succeeds; a failed
   * write leaves the message sent and uncharged.
   */
  lemma SendDebitsLocalCount(w: World, c: Composer, selected: Option<Id>, user: Option<Id>, debitOk: bool)
    requires Guard(c.newMessage, selected, user, c.credits) == Proceeds
    ensures var (w', c') := Send(w, c, selected, user, true, debitOk);
      && w'.tables.credits == (if debitOk then SetBalance(w.tables.credits, user.value, c.credits - 1) else w.tables.credits)
      && c'.credits == (if debitOk then c.credits - 1 else c.credits)
  {
  }

  /**
   * What the page shows after a fetch followed by realtime pushes of the
   * rows inserted since is what a fresh fetch would show: a pushed row
   * of the selected conversation belongs at the tail of the list.
   */
  lemma PushExtendsFetch(msgs: seq<Message>, matchId: Id, row: Message)
    requires row.matchId == matchId
    ensures MessagesOf(msgs + [row], matchId) == MessagesOf(msgs, matchId) + [row]
  {
    FilterAppend(msgs, row, (m: Message) => m.matchId == matchId);
  }

  /** Rows of other conversations inserted meanwhile do not change what a fetch shows. */
  lemma OtherConversationInvisible(msgs: seq<Message>, matchId: Id, row: Message)
    requires row.matchId != matchId
    ensures MessagesOf(msgs + [row], matchId) == MessagesOf(msgs, matchId)
  {
    FilterAppend(msgs, row, (m: Message) => m.matchId == matchId);
  }

  /**
   * The debit is a blind write of the page's own count: when that count is
   * stale, the stored balance is not the stored balance minus one.
   */
  lemma DebitIgnoresStoredBalance(cs: seq<Credit>, uid: Id, local: int)
    requires |CreditsOf(cs, uid)| == 1
    ensures ReadBalance(SetBalance(cs, uid, local - 1), uid, true) == Found(local - 1)
    ensures CreditsOf(cs, uid)[0].balance != local
        ==> ReadBalance(SetBalance(cs, uid, local - 1), uid, true) != Found(CreditsOf(cs, uid)[0].balance - 1)
  {
    SetBalanceReadBack(cs, uid, local - 1);
  }

  /**
   * Two open pages of one user, each having loaded a balance of 1, both
   * send a message and both writes succeed: both sends pass the credit
   * guard, two messages are stored, and the balance reads 0, not -1. One
   * credit paid for two messages.
   */
  lemma TwoPagesShareOneCredit(w: World, first: Composer, second: Composer, conversation: Id, me: Id)
    requires |CreditsOf(w.tables.credits, me)| == 1 && CreditsOf(w.tables.credits, me)[0].balance == 1
    requires first.credits == 1 && second.credits == 1
    requires !Blank(first.newMessage) && !Blank(second.newMessage)
    ensures var w1 := Send(w, first, Some(conversation), Some(me), true, true).0;
            var w2 := Send(w1, second, Some(conversation), Some(me), true, true).0;
            && |MessagesOf(w2.tables.messages, conversation)| == |MessagesOf(w.tables.messages, conversation)| + 2
            && ReadBalance(w2.tables.credits, me, true) == Found(0)
  {
    var w1 := Send(w, first, Some(conversation), Some(me), true, true).0;
    var w2 := Send(w1, second, Some(conversation), Some(me), true, true).0;
    SendAppendsOneMessage(w, first, Some(conversation), Some(me), true);
    SendAppendsOneMessage(w1, second, Some(conversation), Some(me), true);
    SetBalanceReadBack(w.tables.credits, me, 0);
    SetBalanceReadBack(w1.tables.credits, me, 0);
  }
}
