/** The three Supabase tables the Edge Functions touch, held in memory:
    `ai_configurations`, `chat_sessions` and `chat_messages`. Row ids and
    other values the database fills in are passed in by the caller. */
module Tables {
  import Js
  import opened Wrappers

  datatype Configuration = Configuration(
    id: string,
    userId: string,
    provider: string,
    apiKey: string,
    modelA: string,
    modelB: string,
    isActive: bool)

  datatype SessionRow = SessionRow(id: string, userId: string, configurationId: string, title: string)

  /** A `chat_messages` row. `content` is whatever value the provider adapter
      returned, which is a string for every well-formed provider reply. */
  datatype MessageRow = MessageRow(sessionId: string, modelType: string, content: Js.Value)

  class Database {
    var configurations: seq<Configuration>
    var sessions: seq<SessionRow>
    var chatMessages: seq<MessageRow>

    constructor ()
      ensures configurations == [] && sessions == [] && chatMessages == []
    {
      configurations, sessions, chatMessages := [], [], [];
    }
  }

  predicate ActiveFor(c: Configuration, user: string) {
    c.userId == user && c.isActive
  }

  /** The rows of `user` with `is_active = true`, in table order. */
  function ActiveRows(configs: seq<Configuration>, user: string): (r: seq<Configuration>)
    ensures |r| <= |configs|
    ensures forall c :: c in r ==> c in configs && ActiveFor(c, user)
  {
    if |configs| == 0 then []
    else (if ActiveFor(configs[0], user) then [configs[0]] else []) + ActiveRows(configs[1..], user)
  }

  /** The rows owned by `user`, in table order. */
  function RowsOf(configs: seq<Configuration>, user: string): seq<Configuration> {
    if |configs| == 0 then []
    else (if configs[0].userId == user then [configs[0]] else []) + RowsOf(configs[1..], user)
  }

  /** The rule the design promises: no user ever has two active configurations. */
  ghost predicate AtMostOneActive(configs: seq<Configuration>) {
    forall user :: |ActiveRows(configs, user)| <= 1
  }

  /** `.from('ai_configurations').select('*').eq('user_id', user).eq('is_active', true).single()`:
      the row when exactly one matches, otherwise no data. */
  function LookupActive(configs: seq<Configuration>, user: string): (r: Option<Configuration>)
    ensures r.Some? <==> |ActiveRows(configs, user)| == 1
    ensures r.Some? ==> r.value in configs && r.value.userId == user && r.value.isActive
  {
    var rows := ActiveRows(configs, user);
    if |rows| == 1 then
      assert rows[0] in rows;
      Some(rows[0])
    else None
  }

  /** Appending a row adds it to its owner's active rows when it is active, and leaves everyone else's alone. */
  lemma {:induction false} ActiveRowsAppend(configs: seq<Configuration>, x: Configuration, user: string)
    ensures ActiveRows(configs + [x], user) == ActiveRows(configs, user) + (if ActiveFor(x, user) then [x] else [])
  {
    if |configs| == 0 {
      assert configs + [x] == [x];
    } else {
      assert (configs + [x])[1..] == configs[1..] + [x];
      ActiveRowsAppend(configs[1..], x, user);
    }
  }

  lemma {:induction false} RowsOfAppend(configs: seq<Configuration>, x: Configuration, user: string)
    ensures RowsOf(configs + [x], user) == RowsOf(configs, user) + (if x.userId == user then [x] else [])
  {
    if |configs| == 0 {
      assert configs + [x] == [x];
    } else {
      var head := if configs[0].userId == user then [configs[0]] else [];
      var last := if x.userId == user then [x] else [];
      assert (configs + [x])[0] == configs[0];
      assert (configs + [x])[1..] == configs[1..] + [x];
      RowsOfAppend(configs[1..], x, user);
      calc {
        RowsOf(configs + [x], user);
        head + RowsOf(configs[1..] + [x], user);
        head + (RowsOf(configs[1..], user) + last);
        { assert head + (RowsOf(configs[1..], user) + last) == (head + RowsOf(configs[1..], user)) + last; }
        RowsOf(configs, user) + last;
      }
    }
  }
}
