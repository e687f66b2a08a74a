/**
 * The assistant's local storage (API key, settings, history, reminders) and
 * the request contents sendMessageToAI builds. The generative-language API
 * itself is not modelled: its reply is a parameter.
 */
module AiService {
  import opened Common

  const HISTORY_LIMIT: nat := 100
  const CONTEXT_LIMIT: nat := 10
  const NO_KEY := "API key not configured"
  const NO_REPLY := "Sorry, I could not generate a response."

  datatype Settings = Settings(canAccessChats: bool, canSetReminders: bool, personality: string)

  /** What getAISettings returns when nothing is stored. */
  const DEFAULT_SETTINGS := Settings(false, true, "helpful")

  /** One saved exchange entry; `role` is "user" or "assistant". */
  datatype HistoryEntry = HistoryEntry(role: string, text: string, timestamp: int)

  datatype Reminder = Reminder(id: int, text: string, time: string, createdAt: int, completed: bool)

  /** The action object a reply carries as JSON: its `action`, `text` and `time` fields. */
  datatype Action = Action(action: string, text: string, time: string)

  /** What sendMessageToAI resolves to: the reply text and the action found in it, if any. */
  datatype Reply = Reply(text: string, action: Option<Action>)

  /** One element of the request's `contents`: a role ("user" or "model") and one text part. */
  datatype Content = Content(role: string, text: string)

  /** `history.slice(-n)`: the last n entries, or all of them when there are fewer. */
  function LastN<T>(s: seq<T>, n: nat): (r: seq<T>)
    ensures |r| == if |s| < n then |s| else n
    ensures r == s[|s| - |r|..]
  {
    if |s| <= n then s else s[|s| - n..]
  }

  /** Trimming a trimmed history again changes nothing. */
  lemma LastNIdempotent<T>(s: seq<T>, n: nat)
    ensures LastN(LastN(s, n), n) == LastN(s, n)
  {
  }

  /** The role sent for a stored entry: "user" stays, every other role becomes "model". */
  function ContentRole(role: string): (r: string)
    ensures r == "user" || r == "model"
    ensures r == "user" <==> role == "user"
  {
    if role == "user" then "user" else "model"
  }

  /** `reminders.filter(r => r.id !== id)`. */
  function WithoutId(reminders: seq<Reminder>, id: int): (r: seq<Reminder>)
    ensures |r| <= |reminders|
    ensures forall x :: x in r ==> x in reminders && x.id != id
    ensures forall x :: x in reminders && x.id != id ==> x in r
  {
    if |reminders| == 0 then []
    else if reminders[0].id == id then WithoutId(reminders[1..], id)
    else [reminders[0]] + WithoutId(reminders[1..], id)
  }

  /** The filter works element by element, so it keeps the survivors in their original order. */
  lemma {:induction false} WithoutIdAppend(a: seq<Reminder>, b: seq<Reminder>, id: int)
    ensures WithoutId(a + b, id) == WithoutId(a, id) + WithoutId(b, id)
  {
    if |a| > 0 {
      assert (a + b)[0] == a[0];
      assert (a + b)[1..] == a[1..] + b;
      WithoutIdAppend(a[1..], b, id);
      if a[0].id != id {
        assert [a[0]] + (WithoutId(a[1..], id) + WithoutId(b, id))
            == ([a[0]] + WithoutId(a[1..], id)) + WithoutId(b, id);
      }
    } else {
      assert a + b == b;
    }
  }

  /** A list without the id is left as it is; in particular deleting twice is deleting once. */
  lemma {:induction false} WithoutIdAbsent(reminders: seq<Reminder>, id: int)
    requires forall x :: x in reminders ==> x.id != id
    ensures WithoutId(reminders, id) == reminders
  {
    if |reminders| > 0 {
      WithoutIdAbsent(reminders[1..], id);
      assert reminders == [reminders[0]] + reminders[1..];
    }
  }

  /** The message sent last: the chat context is prefixed only when one is given and chats may be read. */
  function FullMessage(message: string, chatContext: Option<string>, settings: Settings): (r: string)
    ensures Truthy(chatContext) && settings.canAccessChats ==>
      |r| > |message| + |chatContext.value| && r[|r| - |message|..] == message && Contains(r, chatContext.value)
    ensures !(Truthy(chatContext) && settings.canAccessChats) ==> r == message
  {
    if Truthy(chatContext) && settings.canAccessChats then
      var r := "[Context: " + chatContext.value + "]\n\n" + message;
      assert OccursAt(r, chatContext.value, 10);
      r
    else message
  }

  /** The browser's localStorage entries the assistant uses. */
  class AiStorage {
    var apiKey: Option<string>
    var settings: Option<Settings>
    var history: seq<HistoryEntry>
    var reminders: seq<Reminder>

    constructor()
      ensures apiKey.None? && settings.None? && history == [] && reminders == []
    {
      apiKey, settings, history, reminders := None, None, [], [];
    }

    /** isAIConfigured. */
    predicate IsAIConfigured()
      reads this
    {
      Truthy(apiKey) && |apiKey.value| > 10
    }

    method SaveAPIKey(key: string)
      modifies this
      ensures apiKey == Some(key) && settings == old(settings)
      ensures history == old(history) && reminders == old(reminders)
      ensures IsAIConfigured() <==> |key| > 10
    {
      apiKey := Some(key);
    }

    method RemoveAPIKey()
      modifies this
      ensures apiKey.None? && !IsAIConfigured()
      ensures settings == old(settings) && history == old(history) && reminders == old(reminders)
    {
      apiKey := None;
    }

    /** getAISettings: the stored settings, or the defaults. */
    function GetAISettings(): (r: Settings)
      reads this
      ensures settings.None? ==> r == DEFAULT_SETTINGS && !r.canAccessChats && r.canSetReminders
      ensures settings.Some? ==> r == settings.value
    {
      if settings.Some? then settings.value else DEFAULT_SETTINGS
    }

    /** saveAIHistory: only the last 100 entries are kept, in order. */
    method SaveAIHistory(entries: seq<HistoryEntry>)
      modifies this
      ensures history == LastN(entries, HISTORY_LIMIT)
      ensures |entries| <= HISTORY_LIMIT ==> history == entries
      ensures apiKey == old(apiKey) && settings == old(settings) && reminders == old(reminders)
    {
      history := LastN(entries, HISTORY_LIMIT);
    }

    /** addReminder: one new, uncompleted reminder stamped with the current time, after all earlier ones. */
    method AddReminder(text: string, time: string, now: int) returns (all: seq<Reminder>)
      modifies this
      ensures all == reminders == old(reminders) + [Reminder(now, text, time, now, false)]
      ensures apiKey == old(apiKey) && settings == old(settings) && history == old(history)
    {
      reminders := reminders + [Reminder(now, text, time, now, false)];
      all := reminders;
    }

    /** deleteReminder: every reminder with the id goes, the rest stay in order. */
    method DeleteReminder(id: int) returns (all: seq<Reminder>)
      modifies this
      ensures all == reminders == WithoutId(old(reminders), id)
      ensures forall x :: x in reminders ==> x.id != id
      ensures apiKey == old(apiKey) && settings == old(settings) && history == old(history)
    {
      reminders := WithoutId(reminders, id);
      all := reminders;
    }

    /**
     * The `contents` of the request: the last ten stored entries, "user"
     * kept and every other role sent as "model", then the new message.
     */
    method BuildContents(message: string, chatContext: Option<string>) returns (contents: seq<Content>)
      ensures |contents| == |LastN(history, CONTEXT_LIMIT)| + 1
      ensures forall i :: 0 <= i < |contents| - 1 ==>
        contents[i] == Content(ContentRole(LastN(history, CONTEXT_LIMIT)[i].role), LastN(history, CONTEXT_LIMIT)[i].text)
      ensures contents[|contents| - 1] == Content("user", FullMessage(message, chatContext, GetAISettings()))
    {
      var recent := LastN(history, CONTEXT_LIMIT);
      contents := [];
      for i := 0 to |recent|
        invariant |contents| == i
        invariant forall j :: 0 <= j < i ==> contents[j] == Content(ContentRole(recent[j].role), recent[j].text)
      {
        contents := contents + [Content(ContentRole(recent[i].role), recent[i].text)];
      }
      contents := contents + [Content("user", FullMessage(message, chatContext, GetAISettings()))];
    }

    /**
     * sendMessageToAI. Without a key it throws before anything else. The
     * reply is the request's outcome: an error is rethrown, a reply without
     * text becomes the apology. On success the exchange is appended to the
     * history, which is trimmed to the last 100 entries, and a "reminder"
     * action found in the reply adds a reminder. `action` is the object
     * parsed out of the reply text, None when it holds none.
     */
    method SendMessageToAI(message: string, chatContext: Option<string>, reply: Result<Option<string>>,
                           action: Option<Action>, now: int)
      returns (contents: seq<Content>, r: Result<Reply>)
      modifies this
      ensures apiKey == old(apiKey) && settings == old(settings)
      ensures !Truthy(apiKey) || reply.Err? ==> reminders == old(reminders)
      ensures !Truthy(apiKey) ==> r == Err(NO_KEY) && contents == [] && history == old(history)
      ensures Truthy(apiKey) ==>
        && |contents| == |LastN(old(history), CONTEXT_LIMIT)| + 1
        && contents[|contents| - 1] == Content("user", FullMessage(message, chatContext, GetAISettings()))
      ensures Truthy(apiKey) && reply.Err? ==> r == Err(reply.message) && history == old(history)
      ensures Truthy(apiKey) && reply.Ok? ==>
        && r == Ok(Reply(if Truthy(reply.value) then reply.value.value else NO_REPLY, action))
        && history == LastN(old(history) + [HistoryEntry("user", message, now), HistoryEntry("assistant", r.value.text, now)],
                            HISTORY_LIMIT)
        && reminders == if action.Some? && action.value.action == "reminder"
                        then old(reminders) + [Reminder(now, action.value.text, action.value.time, now, false)]
                        else old(reminders)
    {
      if !Truthy(apiKey) {
        return [], Err(NO_KEY);
      }
      contents := BuildContents(message, chatContext);
      if reply.Err? {
        return contents, Err(reply.message);
      }
      var text := if Truthy(reply.value) then reply.value.value else NO_REPLY;
      SaveAIHistory(history + [HistoryEntry("user", message, now), HistoryEntry("assistant", text, now)]);
      if action.Some? && action.value.action == "reminder" {
        var all := AddReminder(action.value.text, action.value.time, now);
      }
      r := Ok(Reply(text, action));
    }
  }

  /** After a successful exchange the history ends with the user's message and then the reply. */
  lemma ExchangeEndsHistory(old_history: seq<HistoryEntry>, message: string, reply: string, now: int)
    ensures var h := LastN(old_history + [HistoryEntry("user", message, now), HistoryEntry("assistant", reply, now)],
                           HISTORY_LIMIT);
            |h| >= 2 && h[|h| - 2] == HistoryEntry("user", message, now) && h[|h| - 1] == HistoryEntry("assistant", reply, now)
  {
  }
}
