/** The conversation service (internal/domain/service/conversation/service.go): which conversation
    a chat is in, kept in a cache, a reverse map and a tenant map. */
module Conversation {
  import opened Messages

  type ChatKey = string
  type ConversationId = string // the empty string is the empty ID
  type TenantId = string

  datatype State = State(
    cache: map<ChatKey, ConversationId>,
    reverse: map<ConversationId, ChatKey>,
    tenants: map<ConversationId, TenantId>)

  // ---------- what each operation does to the maps ----------

  // storeMapping
  function Mapped(s: State, key: ChatKey, conv: ConversationId, tenant: TenantId): State
  {
    State(s.cache[key := conv], s.reverse[conv := key], s.tenants[conv := tenant])
  }

  // The store's answer to GetLastConversationID.
  datatype Lookup = Failed | Found(conv: ConversationId)

  datatype Op =
    | Resolve(key: ChatKey, tenant: TenantId, lookup: Lookup, newId: ConversationId)
    | Register(conv: ConversationId, tenant: TenantId)
    | Switch(key: ChatKey, tenant: TenantId, target: ConversationId)
    | Reset(conv: ConversationId, newId: ConversationId)

  function Apply(s: State, op: Op): State
  {
    match op
    case Resolve(key, tenant, lookup, newId) =>
      if key in s.cache || lookup.Failed? then s
      else Mapped(s, key, if lookup.conv != "" then lookup.conv else newId, tenant)
    case Register(conv, tenant) => s.(tenants := s.tenants[conv := tenant])
    case Switch(key, tenant, target) =>
      var t := if key in s.cache
               then s.(reverse := s.reverse - {s.cache[key]}, tenants := s.tenants - {s.cache[key]})
               else s;
      Mapped(t, key, target, tenant)
    case Reset(conv, newId) =>
      if conv !in s.reverse || conv !in s.tenants then s
      else
        var key := s.reverse[conv];
        var t := State(s.cache - {key}, s.reverse - {conv}, s.tenants - {conv});
        Mapped(t, key, newId, s.tenants[conv])
  }

  const NOTHING := State(map[], map[], map[])

  function Run(s: State, ops: seq<Op>): State
  {
    if ops == [] then s else Apply(Run(s, ops[..|ops| - 1]), ops[|ops| - 1])
  }

  // ---------- the maps are inverse to each other ----------

  ghost predicate Inverse(s: State)
  {
    && (forall k :: k in s.cache ==> s.cache[k] in s.reverse && s.reverse[s.cache[k]] == k)
    && (forall c :: c in s.reverse ==> s.reverse[c] in s.cache && s.cache[s.reverse[c]] == c)
    && (forall c :: c in s.reverse ==> c in s.tenants)
  }

  predicate CachedElsewhere(s: State, key: ChatKey, conv: ConversationId)
  {
    exists k :: k in s.cache && k != key && s.cache[k] == conv
  }

  // The conversation an operation would give a chat, if any.
  function Target(s: State, op: Op): Option<(ChatKey, ConversationId)>
  {
    match op
    case Resolve(key, _, lookup, newId) =>
      if key in s.cache || lookup.Failed? then None
      else Some((key, if lookup.conv != "" then lookup.conv else newId))
    case Register(_, _) => None
    case Switch(key, _, target) => Some((key, target))
    case Reset(conv, newId) =>
      if conv !in s.reverse || conv !in s.tenants then None else Some((s.reverse[conv], newId))
  }

  // No chat is given a conversation that another chat is in.
  predicate Unshared(s: State, op: Op)
  {
    match Target(s, op)
    case None => true
    case Some((key, conv)) => !CachedElsewhere(s, key, conv)
  }

  function Without(s: State, key: ChatKey): State
    requires key in s.cache
  {
    State(s.cache - {key}, s.reverse - {s.cache[key]}, s.tenants - {s.cache[key]})
  }

  lemma WithoutInverse(s: State, key: ChatKey)
    requires Inverse(s) && key in s.cache
    ensures Inverse(Without(s, key))
  {
  }

  lemma MappedInverse(s: State, key: ChatKey, conv: ConversationId, tenant: TenantId)
    requires Inverse(s) && key !in s.cache
    ensures Inverse(Mapped(s, key, conv, tenant)) <==> !CachedElsewhere(s, key, conv)
  {
    var t := Mapped(s, key, conv, tenant);
    if k :| k in s.cache && k != key && s.cache[k] == conv {
      assert k in t.cache && t.cache[k] == conv && t.reverse[conv] == key;
    }
  }

  // An operation keeps the maps inverse exactly when it shares no conversation: a switch to a
  // conversation another chat is in leaves two chats in it, and only one way back.
  lemma InverseKeptExactly(s: State, op: Op)
    requires Inverse(s)
    ensures Inverse(Apply(s, op)) <==> Unshared(s, op)
  {
    hide Moved, CachedElsewhere;
    match op
    case Resolve(key, tenant, lookup, newId) =>
      if key !in s.cache && lookup.Found? {
        MappedInverse(s, key, if lookup.conv != "" then lookup.conv else newId, tenant);
      }
    case Register(_, _) =>
    case Switch(key, tenant, target) =>
      SwitchMoves(s, key, tenant, target);
      MovedInverse(s, key, target, tenant);
    case Reset(conv, newId) =>
      if conv in s.reverse {
        ResetMoves(s, conv, newId);
        MovedInverse(s, s.reverse[conv], newId, s.tenants[conv]);
      }
  }

  // A chat taken out of its conversation, if any, and put into another.
  function Moved(s: State, key: ChatKey, conv: ConversationId, tenant: TenantId): State
  {
    Mapped(if key in s.cache then Without(s, key) else s, key, conv, tenant)
  }

  lemma ElsewhereWithout(s: State, key: ChatKey, conv: ConversationId)
    requires key in s.cache
    ensures CachedElsewhere(Without(s, key), key, conv) <==> CachedElsewhere(s, key, conv)
  {
    if k :| k in s.cache && k != key && s.cache[k] == conv {
      assert k in Without(s, key).cache;
    }
  }

  lemma MovedInverse(s: State, key: ChatKey, conv: ConversationId, tenant: TenantId)
    requires Inverse(s)
    ensures Inverse(Moved(s, key, conv, tenant)) <==> !CachedElsewhere(s, key, conv)
  {
    hide Inverse, CachedElsewhere, Mapped;
    if key in s.cache {
      WithoutInverse(s, key);
      ElsewhereWithout(s, key, conv);
      MappedInverse(Without(s, key), key, conv, tenant);
    } else {
      MappedInverse(s, key, conv, tenant);
    }
  }

  lemma SwitchMoves(s: State, key: ChatKey, tenant: TenantId, target: ConversationId)
    ensures Apply(s, Switch(key, tenant, target)) == Moved(s, key, target, tenant)
  {
    assert key in s.cache ==> s.cache[key := target] == (s.cache - {key})[key := target];
  }

  lemma ResetMoves(s: State, conv: ConversationId, newId: ConversationId)
    requires Inverse(s) && conv in s.reverse
    ensures Apply(s, Reset(conv, newId)) == Moved(s, s.reverse[conv], newId, s.tenants[conv])
  {
  }

  // ---------- over whole runs ----------

  // Every conversation belongs to one chat: what the store finds for a chat, what a chat switches
  // to and what is generated for it are its own.
  predicate Owned(owner: ConversationId -> ChatKey, op: Op)
  {
    match op
    case Resolve(key, _, lookup, newId) =>
      owner(newId) == key && (lookup.Found? && lookup.conv != "" ==> owner(lookup.conv) == key)
    case Register(_, _) => true
    case Switch(key, _, target) => owner(target) == key
    case Reset(conv, newId) => owner(newId) == owner(conv)
  }

  ghost predicate OwnCached(s: State, owner: ConversationId -> ChatKey)
  {
    forall k :: k in s.cache ==> owner(s.cache[k]) == k
  }

  lemma OwnershipKept(s: State, owner: ConversationId -> ChatKey, op: Op)
    requires Inverse(s) && OwnCached(s, owner) && Owned(owner, op)
    ensures Unshared(s, op) && OwnCached(Apply(s, op), owner)
  {
  }

  // Any sequence of operations on conversations that are never shared keeps the maps inverse,
  // with a tenant for each cached conversation.
  lemma {:induction false} RunsKeepInverse(owner: ConversationId -> ChatKey, ops: seq<Op>)
    requires forall op :: op in ops ==> Owned(owner, op)
    ensures Inverse(Run(NOTHING, ops)) && OwnCached(Run(NOTHING, ops), owner)
  {
    hide Apply;
    if ops == [] {
    } else {
      var n := |ops| - 1;
      var s := Run(NOTHING, ops[..n]);
      RunsKeepInverse(owner, ops[..n]);
      assert ops[n] in ops;
      OwnershipKept(s, owner, ops[n]);
      InverseKeptExactly(s, ops[n]);
    }
  }

  // ---------- a chat stays where it is ----------

  // The operation is aimed at this chat: a switch of it, or a reset of the conversation it is in.
  predicate Moves(s: State, op: Op, key: ChatKey)
  {
    match op
    case Resolve(_, _, _, _) => false
    case Register(_, _) => false
    case Switch(k, _, _) => k == key
    case Reset(conv, _) => conv in s.reverse && s.reverse[conv] == key
  }

  ghost predicate Untouched(s: State, ops: seq<Op>, key: ChatKey)
  {
    forall i :: 0 <= i < |ops| ==> !Moves(Run(s, ops[..i]), ops[i], key)
  }

  // A chat's conversation, once cached, changes only by a switch or a reset aimed at that chat.
  lemma StaysPutOnce(s: State, op: Op, key: ChatKey)
    requires key in s.cache && !Moves(s, op, key)
    ensures key in Apply(s, op).cache && Apply(s, op).cache[key] == s.cache[key]
  {
  }

  lemma {:induction false} StaysPut(s: State, ops: seq<Op>, key: ChatKey)
    requires key in s.cache && Untouched(s, ops, key)
    ensures key in Run(s, ops).cache && Run(s, ops).cache[key] == s.cache[key]
  {
    hide Apply, Moves;
    if ops == [] {
    } else {
      var n := |ops| - 1;
      forall i | 0 <= i < n ensures !Moves(Run(s, ops[..n][..i]), ops[..n][i], key) {
        assert ops[..n][..i] == ops[..i];
      }
      StaysPut(s, ops[..n], key);
      StaysPutOnce(Run(s, ops[..n]), ops[n], key);
    }
  }

  // A conversation known by its tenant, whether cached or only registered, is forgotten exactly
  // when the chat it is cached for is switched away from it, or when it is reset.
  lemma ForgottenExactly(s: State, op: Op, conv: ConversationId)
    requires Inverse(s) && conv in s.tenants
    ensures conv !in Apply(s, op).tenants <==>
      || (op.Switch? && op.key in s.cache && s.cache[op.key] == conv && op.target != conv)
      || (op.Reset? && op.conv == conv && conv in s.reverse && op.newId != conv)
  {
  }

  // ---------- what sharing a conversation breaks ----------

  // Chat k follows chat j into j's conversation, which is then reset: j is left in a conversation
  // with no tenant, and no further reset of it does anything.
  lemma SharedIsStuck(
    s: State, j: ChatKey, k: ChatKey, tenant: TenantId, newId: ConversationId, again: ConversationId)
    requires Inverse(s) && j in s.cache && k != j && newId != s.cache[j]
    ensures
      var conv := s.cache[j];
      var after := Run(s, [Switch(k, tenant, conv), Reset(conv, newId)]);
      && j in after.cache && after.cache[j] == conv
      && k in after.cache && after.cache[k] == newId
      && conv !in after.tenants && !Inverse(after)
      && Apply(after, Reset(conv, again)) == after
  {
    var conv := s.cache[j];
    var first, second := Switch(k, tenant, conv), Reset(conv, newId);
    assert [first, second][..1] == [first] && [first][..0] == [];
    assert Run(s, [first]) == Apply(s, first);
    assert Run(s, [first, second]) == Apply(Apply(s, first), second);
  }

  // ---------- the service ----------

  class Service {
    var cache: map<ChatKey, ConversationId>
    var reverse: map<ConversationId, ChatKey>
    var tenants: map<ConversationId, TenantId>

    function Contents(): State
      reads this
    {
      State(cache, reverse, tenants)
    }

    constructor ()
      ensures Contents() == NOTHING && Inverse(Contents())
    {
      cache, reverse, tenants := map[], map[], map[];
    }

    method StoreMapping(key: ChatKey, conv: ConversationId, tenant: TenantId)
      modifies this
      ensures Contents() == Mapped(old(Contents()), key, conv, tenant)
      ensures key in cache && cache[key] == conv && reverse[conv] == key && tenants[conv] == tenant
    {
      cache := cache[key := conv];
      reverse := reverse[conv := key];
      tenants := tenants[conv := tenant];
    }

    // The conversation returned is the one the chat is in from then on; None is the store's error.
    method ResolveConversation(key: ChatKey, tenant: TenantId, lookup: Lookup, newId: ConversationId)
      returns (conv: Option<ConversationId>)
      modifies this
      ensures Contents() == Apply(old(Contents()), Resolve(key, tenant, lookup, newId))
      ensures conv.None? <==> key !in old(cache) && lookup.Failed?
      ensures conv.None? ==> Contents() == old(Contents())
      ensures conv.Some? ==> key in cache && cache[key] == conv.value
      ensures key in old(cache) ==> conv == Some(old(cache)[key]) && Contents() == old(Contents())
      ensures key !in old(cache) && lookup.Found? ==>
        && conv == Some(if lookup.conv != "" then lookup.conv else newId)
        && cache == old(cache)[key := conv.value] && reverse == old(reverse)[conv.value := key]
        && tenants == old(tenants)[conv.value := tenant]
    {
      if key in cache { return Some(cache[key]); }
      if lookup.Failed? { return None; }
      if lookup.conv != "" {
        StoreMapping(key, lookup.conv, tenant);
        return Some(lookup.conv);
      }
      StoreMapping(key, newId, tenant);
      return Some(newId);
    }

    method RegisterConversation(tenant: TenantId, conv: ConversationId)
      modifies this
      ensures Contents() == Apply(old(Contents()), Register(conv, tenant))
      ensures cache == old(cache) && reverse == old(reverse) && tenants == old(tenants)[conv := tenant]
    {
      tenants := tenants[conv := tenant];
    }

    method SwitchConversation(key: ChatKey, tenant: TenantId, target: ConversationId)
      modifies this
      ensures Contents() == Apply(old(Contents()), Switch(key, tenant, target))
      ensures cache == old(cache)[key := target] && tenants[target] == tenant
      ensures target in reverse && reverse[target] == key
      ensures key in old(cache) && old(cache)[key] != target ==>
        old(cache)[key] !in reverse && old(cache)[key] !in tenants
      ensures old(Inverse(Contents())) ==>
        (Inverse(Contents()) <==> !CachedElsewhere(old(Contents()), key, target))
    {
      ghost var before, op := Contents(), Switch(key, tenant, target);
      if Inverse(before) { InverseKeptExactly(before, op); }
      if key in cache {
        var previous := cache[key];
        reverse := reverse - {previous};
        tenants := tenants - {previous};
      }
      StoreMapping(key, target, tenant);
    }

    method ResetConversation(conv: ConversationId, newId: ConversationId)
      modifies this
      ensures Contents() == Apply(old(Contents()), Reset(conv, newId))
      ensures old(Inverse(Contents())) && conv in old(reverse) && (newId == conv || newId !in old(reverse)) ==>
        && Inverse(Contents()) && cache == old(cache)[old(reverse)[conv] := newId]
        && newId in reverse && reverse[newId] == old(reverse)[conv] && tenants[newId] == old(tenants)[conv]
        && (newId != conv ==> conv !in reverse && conv !in tenants)
    {
      ghost var before, op := Contents(), Reset(conv, newId);
      if Inverse(before) { InverseKeptExactly(before, op); }
      if conv !in reverse { return; }
      var key := reverse[conv];
      if conv !in tenants { return; }
      var tenant := tenants[conv];
      cache := cache - {key};
      reverse := reverse - {conv};
      tenants := tenants - {conv};
      StoreMapping(key, newId, tenant);
    }
  }
}
