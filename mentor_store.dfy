/**
 * The conversation ("mentor") store (store/mentorStore.ts). The signed-in user, the
 * completion service's answer, the fetched documents and the clock are inputs; the
 * remote save's outcome is an input that the store never looks at.
 */
module MentorStore {
  import opened Wrappers
  import AuthStore

  datatype Role = SystemRole | UserRole | AssistantRole

  datatype ChatMessage = ChatMessage(role: Role, content: string)

  const SystemPrompt: string :=
    "Você é um mentor virtual inteligente, projetado para fornecer orientação personalizada, responder perguntas e ajudar o usuário a alcançar seus objetivos de aprendizado. Seja útil, claro e motivador em suas respostas."

  /** The message every new conversation starts with. */
  const SystemMessage: ChatMessage := ChatMessage(SystemRole, SystemPrompt)

  const DefaultTitle: string := "Nova Conversa"
  const NotAuthenticated: string := "Usuário não autenticado"
  const NoConversationSelected: string := "Nenhuma conversa selecionada"

  datatype Conversation = Conversation(
    id: string,
    title: string,
    messages: seq<ChatMessage>,
    createdAt: int,
    updatedAt: int,
    userId: string)

  /** A fetched document: its identifier and its data (a conversation without `id`). */
  datatype ConversationDoc = ConversationDoc(
    docId: string,
    title: string,
    messages: seq<ChatMessage>,
    createdAt: int,
    updatedAt: int,
    userId: string)

  /** `{ id: doc.id, ...doc.data() }`. */
  function FromDoc(d: ConversationDoc): (c: Conversation)
    ensures c.id == d.docId && c.messages == d.messages && c.userId == d.userId
  {
    Conversation(d.docId, d.title, d.messages, d.createdAt, d.updatedAt, d.userId)
  }

  // ---- Conversation identifiers: `Date.now().toString()` ----

  function DigitChar(d: nat): (c: char)
    requires d < 10
    ensures c as int == '0' as int + d
  {
    ('0' as int + d) as char
  }

  /** The decimal rendering of a non-negative integer, without leading zeros. */
  function DecimalString(n: nat): (s: string)
    ensures 1 <= |s|
    ensures forall i :: 0 <= i < |s| ==> '0' <= s[i] <= '9'
    ensures 1 < |s| ==> s[0] != '0'
    decreases n
  {
    if n < 10 then [DigitChar(n)] else DecimalString(n / 10) + [DigitChar(n % 10)]
  }

  /** Distinct clock readings give distinct identifiers. */
  lemma {:induction false} DecimalStringInjective(a: nat, b: nat)
    requires DecimalString(a) == DecimalString(b)
    ensures a == b
    decreases a
  {
    var sa, sb := DecimalString(a), DecimalString(b);
    if a < 10 && b < 10 {
      assert sa[0] == DigitChar(a) && sb[0] == DigitChar(b);
    } else if 10 <= a && 10 <= b {
      var pa, pb := DecimalString(a / 10), DecimalString(b / 10);
      assert sa == pa + [DigitChar(a % 10)] && sb == pb + [DigitChar(b % 10)];
      assert sa[|sa| - 1] == DigitChar(a % 10) && sb[|sb| - 1] == DigitChar(b % 10);
      assert pa == sa[..|sa| - 1] && pb == sb[..|sb| - 1];
      DecimalStringInjective(a / 10, b / 10);
    }
  }

  // ---- The list transforms the actions use ----

  /** `conversations.find(c => c.id === id)`. */
  function FindById(cs: seq<Conversation>, id: string): (r: Option<Conversation>)
    ensures r.None? <==> forall i :: 0 <= i < |cs| ==> cs[i].id != id
    ensures r.Some? ==> exists k :: 0 <= k < |cs| && cs[k] == r.value && r.value.id == id
                                    && forall j :: 0 <= j < k ==> cs[j].id != id
  {
    if cs == [] then None
    else if cs[0].id == id then Some(cs[0])
    else
      var r := FindById(cs[1..], id);
      assert r.Some? ==> exists k :: 1 <= k < |cs| && cs[k] == r.value && r.value.id == id
                                     && forall j :: 0 <= j < k ==> cs[j].id != id by {
        if r.Some? {
          var k' :| 0 <= k' < |cs| - 1 && cs[1..][k'] == r.value && r.value.id == id
                    && forall j :: 0 <= j < k' ==> cs[1..][j].id != id;
          assert cs[k' + 1] == r.value;
          assert forall j :: 1 <= j < k' + 1 ==> cs[j].id != id by {
            forall j | 1 <= j < k' + 1 ensures cs[j].id != id {
              assert cs[j] == cs[1..][j - 1];
            }
          }
        }
      }
      r
  }

  /** `conversations.find(c => c.id !== id)`. */
  function FirstWithOtherId(cs: seq<Conversation>, id: string): (r: Option<Conversation>)
    ensures r.Some? ==> r.value in cs && r.value.id != id
    ensures r.None? <==> forall i :: 0 <= i < |cs| ==> cs[i].id == id
  {
    if cs == [] then None
    else if cs[0].id != id then Some(cs[0])
    else
      var r := FirstWithOtherId(cs[1..], id);
      assert r.None? ==> forall i :: 0 <= i < |cs| ==> cs[i].id == id by {
        if r.None? {
          forall i | 1 <= i < |cs| ensures cs[i].id == id {
            assert cs[i] == cs[1..][i - 1];
          }
        }
      }
      r
  }

  /** `conversations.filter(c => c.id !== id)`. */
  function RemoveById(cs: seq<Conversation>, id: string): (r: seq<Conversation>)
    ensures |r| <= |cs|
    ensures forall c :: c in r <==> c in cs && c.id != id
  {
    if cs == [] then []
    else if cs[0].id == id then RemoveById(cs[1..], id)
    else [cs[0]] + RemoveById(cs[1..], id)
  }

  /** `conversations.map(c => c.id === updated.id ? updated : c)`. */
  function ReplaceById(cs: seq<Conversation>, updated: Conversation): (r: seq<Conversation>)
    ensures |r| == |cs|
  {
    seq(|cs|, i requires 0 <= i < |cs| => if cs[i].id == updated.id then updated else cs[i])
  }

  /** The current conversation after `deleteConversation(id)`. */
  function FallbackAfterDelete(cs: seq<Conversation>, current: Option<Conversation>, id: string)
    : (r: Option<Conversation>)
    ensures current.None? || current.value.id != id ==> r == current
    ensures current.Some? && current.value.id == id && r.Some? ==> r.value in cs && r.value.id != id
    ensures current.Some? && current.value.id == id && |cs| <= 1 ==> r.None?
  {
    if current.Some? && current.value.id == id
    then (if |cs| > 1 then FirstWithOtherId(cs, id) else None)
    else current
  }

  /** A conversation after one more turn: the message appended and the clock stamped. */
  function AppendTurn(c: Conversation, m: ChatMessage, now: int): (r: Conversation)
    ensures |r.messages| == |c.messages| + 1
    ensures r.messages[..|c.messages|] == c.messages && r.messages[|c.messages|] == m
    ensures r.id == c.id && r.title == c.title && r.createdAt == c.createdAt && r.userId == c.userId
    ensures r.updatedAt == now
  {
    c.(messages := c.messages + [m], updatedAt := now)
  }

  /** A conversation that starts with the system message and holds no other system message. */
  predicate Seeded(c: Conversation)
  {
    |c.messages| > 0 && c.messages[0] == SystemMessage
    && forall i :: 1 <= i < |c.messages| ==> c.messages[i].role != SystemRole
  }

  /** The current conversation, if any, has its identifier in the list. */
  predicate Listed(cs: seq<Conversation>, current: Option<Conversation>)
  {
    current.None? || exists i :: 0 <= i < |cs| && cs[i].id == current.value.id
  }

  predicate AllSeeded(cs: seq<Conversation>, current: Option<Conversation>)
  {
    (forall i :: 0 <= i < |cs| ==> Seeded(cs[i])) && (current.Some? ==> Seeded(current.value))
  }

  /** The loop that turns the fetched snapshot into conversations, in snapshot order. */
  method BuildConversations(docs: seq<ConversationDoc>) returns (cs: seq<Conversation>)
    ensures |cs| == |docs|
    ensures forall i :: 0 <= i < |docs| ==> cs[i] == FromDoc(docs[i])
  {
    cs := [];
    var k := 0;
    while k < |docs|
      invariant 0 <= k <= |docs|
      invariant |cs| == k
      invariant forall i :: 0 <= i < k ==> cs[i] == FromDoc(docs[i])
    {
      cs := cs + [FromDoc(docs[k])];
      k := k + 1;
    }
  }

  class MentorStore {
    var conversations: seq<Conversation>
    var currentConversation: Option<Conversation>
    var isLoading: bool
    var error: Option<string>

    constructor ()
      ensures conversations == [] && currentConversation.None? && !isLoading && error.None?
    {
      conversations, currentConversation, isLoading, error := [], None, false, None;
    }

    predicate CurrentListed()
      reads this
    {
      Listed(conversations, currentConversation)
    }

    predicate EverySeeded()
      reads this
    {
      AllSeeded(conversations, currentConversation)
    }

    /** `createConversation`: `clock1` names it, `clock2` and `clock3` stamp it. */
    method CreateConversation(title: Option<string>, user: Option<AuthStore.AuthUser>,
                              clock1: nat, clock2: nat, clock3: nat)
      modifies this
      ensures isLoading == old(isLoading)
      ensures user.None? ==>
                error == Some(NotAuthenticated)
                && conversations == old(conversations) && currentConversation == old(currentConversation)
      ensures user.Some? ==>
                var c := Conversation(DecimalString(clock1), if title.Some? then title.value else DefaultTitle,
                                      [SystemMessage], clock2, clock3, user.value.uid);
                && conversations == [c] + old(conversations)
                && currentConversation == Some(c)
                && error == old(error)
      ensures old(CurrentListed()) ==> CurrentListed()
      ensures old(EverySeeded()) ==> EverySeeded()
    {
      if user.None? {
        error := Some(NotAuthenticated);
        return;
      }
      var c := Conversation(DecimalString(clock1), if title.Some? then title.value else DefaultTitle,
                            [SystemMessage], clock2, clock3, user.value.uid);
      conversations, currentConversation := [c] + conversations, Some(c);
      assert conversations[0] == c;
    }

    /** `selectConversation`: the first conversation with that identifier, or null. */
    method SelectConversation(id: string)
      modifies this`currentConversation
      ensures currentConversation == FindById(conversations, id)
      ensures CurrentListed()
      ensures old(EverySeeded()) ==> EverySeeded()
    {
      currentConversation := FindById(conversations, id);
    }

    /** `set({ isLoading: true, error: null })`, issued before an action calls out. */
    method BeginRequest()
      modifies this`isLoading, this`error
      ensures isLoading && error.None?
    {
      isLoading, error := true, None;
    }

    /**
     * `sendMessage`. The user turn is installed before the completion is awaited and is
     * not rolled back when the completion fails. `saved`, the outcome of the remote
     * save, is swallowed by `saveConversationToFirestore`: no part of the state depends on it.
     */
    method SendMessage(content: string, completion: Result<string>, clock1: nat, clock2: nat,
                       saved: Outcome)
      modifies this
      ensures !isLoading
      ensures old(currentConversation).None? ==>
                error == Some(NoConversationSelected)
                && conversations == old(conversations) && currentConversation == old(currentConversation)
      ensures old(currentConversation).Some? && completion.Ok? ==>
                var withUser := AppendTurn(old(currentConversation).value, ChatMessage(UserRole, content), clock1);
                var final := AppendTurn(withUser, ChatMessage(AssistantRole, completion.value), clock2);
                && currentConversation == Some(final)
                && conversations == ReplaceById(old(conversations), final)
                && error.None?
      ensures old(currentConversation).Some? && completion.Err? ==>
                var withUser := AppendTurn(old(currentConversation).value, ChatMessage(UserRole, content), clock1);
                && currentConversation == Some(withUser)
                && conversations == ReplaceById(old(conversations), withUser)
                && error == Some(CaughtMessage(completion.thrown, "Erro ao enviar mensagem"))
      ensures old(CurrentListed()) ==> CurrentListed()
      ensures old(EverySeeded()) ==> EverySeeded()
    {
      if currentConversation.None? {
        isLoading, error := false, Some(CaughtMessage(ErrorObject(NoConversationSelected), "Erro ao enviar mensagem"));
        return;
      }
      ghost var before := conversations;
      BeginRequest();
      var userMessage := ChatMessage(UserRole, content);
      var withUser := AppendTurn(currentConversation.value, userMessage, clock1);
      SeededAfterTurn(currentConversation.value, userMessage, clock1);
      ReplaceKeepsInvariants(conversations, currentConversation.value, withUser);
      currentConversation, conversations := Some(withUser), ReplaceById(conversations, withUser);
      if completion.Err? {
        isLoading, error := false, Some(CaughtMessage(completion.thrown, "Erro ao enviar mensagem"));
        return;
      }
      var assistantMessage := ChatMessage(AssistantRole, completion.value);
      var final := AppendTurn(withUser, assistantMessage, clock2);
      SeededAfterTurn(withUser, assistantMessage, clock2);
      ReplaceKeepsInvariants(conversations, withUser, final);
      ReplaceTwice(before, withUser, final);
      isLoading, currentConversation, conversations := false, Some(final), ReplaceById(conversations, final);
    }

    /**
     * `fetchConversations`, installing what the query returned. Without a user nothing
     * happens; a failed query records its message and keeps the list.
     */
    method FetchConversations(user: Option<AuthStore.AuthUser>, fetched: Result<seq<ConversationDoc>>)
      modifies this
      ensures user.None? ==>
                conversations == old(conversations) && currentConversation == old(currentConversation)
                && isLoading == old(isLoading) && error == old(error)
      ensures user.Some? && fetched.Err? ==>
                !isLoading && error == Some(CaughtMessage(fetched.thrown, "Erro ao buscar conversas"))
                && conversations == old(conversations) && currentConversation == old(currentConversation)
      ensures user.Some? && fetched.Ok? ==>
                && |conversations| == |fetched.value|
                && (forall i :: 0 <= i < |fetched.value| ==> conversations[i] == FromDoc(fetched.value[i]))
                && currentConversation == (if |conversations| > 0 then Some(conversations[0]) else None)
                && !isLoading && error.None?
                && (EverySeeded() <==> forall i :: 0 <= i < |fetched.value| ==> Seeded(FromDoc(fetched.value[i])))
      ensures old(CurrentListed()) ==> CurrentListed()
    {
      if user.None? {
        return;
      }
      BeginRequest();
      if fetched.Err? {
        isLoading, error := false, Some(CaughtMessage(fetched.thrown, "Erro ao buscar conversas"));
        return;
      }
      var cs := BuildConversations(fetched.value);
      conversations, isLoading := cs, false;
      currentConversation := if |cs| > 0 then Some(cs[0]) else None;
    }

    /** `deleteConversation`: local removal, with a fallback when the current one goes. */
    method DeleteConversation(id: string)
      modifies this
      ensures conversations == RemoveById(old(conversations), id)
      ensures currentConversation == FallbackAfterDelete(old(conversations), old(currentConversation), id)
      ensures !isLoading && error.None?
      ensures old(CurrentListed()) ==> CurrentListed()
      ensures old(EverySeeded()) ==> EverySeeded()
    {
      BeginRequest();
      DeleteKeepsInvariants(conversations, currentConversation, id);
      conversations, currentConversation :=
        RemoveById(conversations, id), FallbackAfterDelete(conversations, currentConversation, id);
      isLoading := false;
    }

    method ClearError()
      modifies this`error
      ensures error.None?
    {
      error := None;
    }
  }

  // ---- Properties ----

  /** A new conversation holds exactly the system message. */
  lemma NewConversationSeeded(id: string, title: string, t1: int, t2: int, uid: string)
    ensures Seeded(Conversation(id, title, [SystemMessage], t1, t2, uid))
  {
  }

  /** A non-system turn keeps the old messages as a prefix and keeps the conversation seeded. */
  lemma SeededAfterTurn(c: Conversation, m: ChatMessage, now: int)
    ensures AppendTurn(c, m, now).messages[..|c.messages|] == c.messages
    ensures AppendTurn(c, m, now).id == c.id
    ensures Seeded(c) && m.role != SystemRole ==> Seeded(AppendTurn(c, m, now))
  {
    var n := AppendTurn(c, m, now);
    if Seeded(c) && m.role != SystemRole {
      forall i | 1 <= i < |n.messages| ensures n.messages[i].role != SystemRole {
        if i < |c.messages| {
          assert n.messages[i] == c.messages[i];
        }
      }
    }
  }

  /** Replacing by identifier touches exactly the entries with that identifier. */
  lemma ReplaceTouchesOnlyThatId(cs: seq<Conversation>, updated: Conversation, i: int)
    requires 0 <= i < |cs|
    ensures cs[i].id == updated.id ==> ReplaceById(cs, updated)[i] == updated
    ensures cs[i].id != updated.id ==> ReplaceById(cs, updated)[i] == cs[i]
    ensures ReplaceById(cs, updated)[i].id == cs[i].id
  {
  }

  /** Replacing twice with the same identifier is replacing once with the later value. */
  lemma ReplaceTwice(cs: seq<Conversation>, a: Conversation, b: Conversation)
    requires a.id == b.id
    ensures ReplaceById(ReplaceById(cs, a), b) == ReplaceById(cs, b)
  {
  }

  /** A replacement that keeps the identifier keeps the store's invariants. */
  lemma ReplaceKeepsInvariants(cs: seq<Conversation>, current: Conversation, updated: Conversation)
    requires updated.id == current.id
    ensures Listed(cs, Some(current)) ==> Listed(ReplaceById(cs, updated), Some(updated))
    ensures AllSeeded(cs, Some(current)) && Seeded(updated) ==>
              AllSeeded(ReplaceById(cs, updated), Some(updated))
  {
    var r := ReplaceById(cs, updated);
    if Listed(cs, Some(current)) {
      var i :| 0 <= i < |cs| && cs[i].id == current.id;
      assert r[i].id == current.id;
    }
  }

  /** Filtering keeps the order of what it keeps: it distributes over concatenation. */
  lemma {:induction false} RemoveConcat(a: seq<Conversation>, b: seq<Conversation>, id: string)
    ensures RemoveById(a + b, id) == RemoveById(a, id) + RemoveById(b, id)
  {
    if a != [] {
      assert (a + b)[1..] == a[1..] + b;
      RemoveConcat(a[1..], b, id);
    } else {
      assert a + b == b;
    }
  }

  /** Deleting an identifier no entry has leaves the list as it was. */
  lemma {:induction false} RemoveAbsentIsIdentity(cs: seq<Conversation>, id: string)
    requires forall i :: 0 <= i < |cs| ==> cs[i].id != id
    ensures RemoveById(cs, id) == cs
  {
    if cs != [] {
      assert forall i :: 0 <= i < |cs[1..]| ==> cs[1..][i].id != id by {
        forall i | 0 <= i < |cs[1..]| ensures cs[1..][i].id != id {
          assert cs[1..][i] == cs[i + 1];
        }
      }
      RemoveAbsentIsIdentity(cs[1..], id);
      assert cs == [cs[0]] + cs[1..];
    }
  }

  /** The entry `find(c => c.id !== id)` picks is the head of the filtered list. */
  lemma {:induction false} FirstWithOtherIdIsFirstRemaining(cs: seq<Conversation>, id: string)
    ensures FirstWithOtherId(cs, id) == if RemoveById(cs, id) == [] then None else Some(RemoveById(cs, id)[0])
  {
    if cs != [] && cs[0].id == id {
      FirstWithOtherIdIsFirstRemaining(cs[1..], id);
    }
  }

  /**
   * Deleting the current conversation falls back to the first remaining one, or to
   * null when none remains, provided the current conversation is in the list.
   */
  lemma DeleteFallsBackToFirstRemaining(cs: seq<Conversation>, current: Conversation, id: string)
    requires Listed(cs, Some(current)) && current.id == id
    ensures FallbackAfterDelete(cs, Some(current), id)
            == if RemoveById(cs, id) == [] then None else Some(RemoveById(cs, id)[0])
  {
    FirstWithOtherIdIsFirstRemaining(cs, id);
    if |cs| <= 1 {
      var i :| 0 <= i < |cs| && cs[i].id == current.id;
      assert cs == [cs[0]] && cs[0].id == id;
      assert RemoveById(cs, id) == RemoveById([], id);
    }
  }

  /** Deleting another conversation leaves the current one where it was. */
  lemma DeleteOtherKeepsCurrent(cs: seq<Conversation>, current: Option<Conversation>, id: string)
    requires current.None? || current.value.id != id
    ensures FallbackAfterDelete(cs, current, id) == current
    ensures Listed(cs, current) ==> Listed(RemoveById(cs, id), current)
  {
    if current.Some? && Listed(cs, current) {
      var i :| 0 <= i < |cs| && cs[i].id == current.value.id;
      assert cs[i] in RemoveById(cs, id);
      var j :| 0 <= j < |RemoveById(cs, id)| && RemoveById(cs, id)[j] == cs[i];
    }
  }

  /** Deletion keeps the current conversation listed and every conversation seeded. */
  lemma DeleteKeepsInvariants(cs: seq<Conversation>, current: Option<Conversation>, id: string)
    ensures Listed(cs, current) ==> Listed(RemoveById(cs, id), FallbackAfterDelete(cs, current, id))
    ensures AllSeeded(cs, current) ==> AllSeeded(RemoveById(cs, id), FallbackAfterDelete(cs, current, id))
  {
    var r := RemoveById(cs, id);
    var f := FallbackAfterDelete(cs, current, id);
    if current.Some? && current.value.id == id {
      if f.Some? {
        assert f.value in r;
        var j :| 0 <= j < |r| && r[j] == f.value;
      }
    } else {
      DeleteOtherKeepsCurrent(cs, current, id);
    }
    if AllSeeded(cs, current) {
      forall i | 0 <= i < |r| ensures Seeded(r[i]) {
        assert r[i] in cs;
      }
      if f.Some? && f != current {
        assert f.value in cs;
      }
    }
  }

  /** Deleting "1" from ["1", "2"] while "1" is current makes "2" current. */
  lemma DeleteExample()
    ensures var one := Conversation("1", DefaultTitle, [SystemMessage], 100, 100, "u");
            var two := Conversation("2", DefaultTitle, [SystemMessage], 200, 200, "u");
            && RemoveById([one, two], "1") == [two]
            && FallbackAfterDelete([one, two], Some(one), "1") == Some(two)
  {
    var one := Conversation("1", DefaultTitle, [SystemMessage], 100, 100, "u");
    var two := Conversation("2", DefaultTitle, [SystemMessage], 200, 200, "u");
    assert [one, two][1..] == [two];
    assert [two][1..] == [];
  }
}
