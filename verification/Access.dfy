/** Chat access: who may use the bot (internal/policy/access.go) and how the lists come
    to be (internal/bridge/access.go, internal/bridge/commands.go). Commands are checked
    against the live lists, then change the saved ones in unlocked sections; an owner
    refresh may come at any time. */
module Access {
  import opened Common

  datatype Kind = UserKind | AdminKind | GroupKind

  /** The access part of a profile. */
  datatype Lists = Lists(users: seq<string>, chats: seq<string>, admins: seq<string>, cachedOwner: string)

  datatype Change = Invite(kind: Kind, ids: seq<string>) | Remove(kind: Kind, ids: seq<string>) | CacheOwner(id: string)

  // ----- decisions ----------------------------------------------------------

  /** `contains`: the empty id is in no list. */
  method Contains(list: seq<string>, id: string) returns (found: bool)
    ensures found <==> Has(list, id)
  {
    if id == "" {
      return false;
    }
    for i := 0 to |list|
      invariant id !in list[..i]
    {
      if list[i] == id {
        return true;
      }
    }
    assert list[..|list|] == list;
    return false;
  }

  predicate Has(list: seq<string>, id: string) { id != "" && id in list }

  datatype Reason = Owner | AllowedUser | AllowedAdmin | AllowedChat | DeniedUser | DeniedChat | DeniedAdmin
  datatype Decision = Decision(ok: bool, reason: Reason)

  predicate IsCreator(owner: string, sender: string) {
    owner != "" && sender != "" && owner == sender
  }

  predicate HasTrustAnchor(lists: Lists, owner: string) {
    owner != "" || |lists.users| > 0 || |lists.chats| > 0 || |lists.admins| > 0
  }

  function CanUseDM(lists: Lists, owner: string, sender: string): Decision {
    if IsCreator(owner, sender) then Decision(true, Owner)
    else if Has(lists.users, sender) then Decision(true, AllowedUser)
    else if Has(lists.admins, sender) then Decision(true, AllowedAdmin)
    else if !HasTrustAnchor(lists, owner) then Decision(true, Owner)
    else Decision(false, DeniedUser)
  }

  function CanUseGroup(lists: Lists, owner: string, chat: string, sender: string): Decision {
    if IsCreator(owner, sender) then Decision(true, Owner)
    else if Has(lists.admins, sender) then Decision(true, AllowedAdmin)
    else if Has(lists.chats, chat) then Decision(true, AllowedChat)
    else if !HasTrustAnchor(lists, owner) then Decision(true, Owner)
    else Decision(false, DeniedChat)
  }

  function CanRunAdminCommand(lists: Lists, owner: string, sender: string): Decision {
    if IsCreator(owner, sender) then Decision(true, Owner)
    else if Has(lists.admins, sender) then Decision(true, AllowedAdmin)
    else if !HasTrustAnchor(lists, owner) then Decision(true, Owner)
    else Decision(false, DeniedAdmin)
  }

  // ----- changes ------------------------------------------------------------

  /** The list without `id`, order kept. */
  function Without(list: seq<string>, id: string): seq<string> {
    if list == [] then []
    else Without(list[..|list| - 1], id) + if list[|list| - 1] == id then [] else [list[|list| - 1]]
  }

  function With(list: seq<string>, id: string): seq<string> {
    if id in list then list else list + [id]
  }

  method AddUnique(list: seq<string>, id: string) returns (next: seq<string>, added: bool)
    ensures next == With(list, id) && (added <==> id !in list)
  {
    for i := 0 to |list|
      invariant id !in list[..i]
    {
      if list[i] == id {
        return list, false;
      }
    }
    assert list[..|list|] == list;
    return list + [id], true;
  }

  method RemoveId(list: seq<string>, id: string) returns (next: seq<string>, removed: bool)
    ensures next == Without(list, id) && (removed <==> id in list)
  {
    next, removed := [], false;
    for i := 0 to |list|
      invariant next == Without(list[..i], id) && (removed <==> id in list[..i])
    {
      assert list[..i + 1][..i] == list[..i];
      if list[i] == id {
        removed := true;
      } else {
        next := next + [list[i]];
      }
    }
    assert list[..|list|] == list;
  }

  function WithAll(list: seq<string>, ids: seq<string>): seq<string> {
    if ids == [] then list else With(WithAll(list, ids[..|ids| - 1]), ids[|ids| - 1])
  }

  function WithoutAll(list: seq<string>, ids: seq<string>): seq<string> {
    if ids == [] then list else Without(WithoutAll(list, ids[..|ids| - 1]), ids[|ids| - 1])
  }

  function ListOf(lists: Lists, kind: Kind): seq<string> {
    match kind
    case UserKind => lists.users
    case AdminKind => lists.admins
    case GroupKind => lists.chats
  }

  function WithList(lists: Lists, kind: Kind, list: seq<string>): Lists {
    match kind
    case UserKind => lists.(users := list)
    case AdminKind => lists.(admins := list)
    case GroupKind => lists.(chats := list)
  }

  /** What a command does to the lists it loaded. */
  function Applied(lists: Lists, change: Change): Lists {
    match change
    case Invite(kind, ids) => WithList(lists, kind, WithAll(ListOf(lists, kind), ids))
    case Remove(kind, ids) => WithList(lists, kind, WithoutAll(ListOf(lists, kind), ids))
    case CacheOwner(id) => lists.(cachedOwner := id)
  }

  lemma {:induction false} WithoutMeaning(list: seq<string>, id: string)
    ensures forall x :: x in Without(list, id) <==> x in list && x != id
    ensures Distinct(list) ==> Distinct(Without(list, id))
    ensures id !in list ==> Without(list, id) == list
  {
    if list != [] {
      var front, last := list[..|list| - 1], list[|list| - 1];
      WithoutMeaning(front, id);
      assert list == front + [last];
      assert forall x :: x in list <==> x in front || x == last;
      assert Distinct(list) ==> Distinct(front) && last !in front;
    }
  }

  /** Removing works part by part, so what stays keeps its order: with the two facts about
      lists without `id` and about `id` alone this fixes the result. */
  lemma {:induction false} WithoutParts(a: seq<string>, b: seq<string>, id: string)
    ensures Without(a + b, id) == Without(a, id) + Without(b, id)
    ensures Without([id], id) == []
    ensures id !in a ==> Without(a, id) == a
  {
    WithoutMeaning(a, id);
    if b == [] {
      assert a + b == a;
    } else {
      WithoutParts(a, b[..|b| - 1], id);
      assert (a + b)[..|a + b| - 1] == a + b[..|b| - 1];
    }
  }

  lemma {:induction false} WithAllMeaning(list: seq<string>, ids: seq<string>)
    ensures forall x :: x in WithAll(list, ids) <==> x in list || x in ids
    ensures Distinct(list) ==> Distinct(WithAll(list, ids))
    ensures list <= WithAll(list, ids)
  {
    if ids != [] {
      WithAllMeaning(list, ids[..|ids| - 1]);
      assert ids == ids[..|ids| - 1] + [ids[|ids| - 1]];
    }
  }

  lemma {:induction false} WithoutAllMeaning(list: seq<string>, ids: seq<string>)
    ensures forall x :: x in WithoutAll(list, ids) <==> x in list && x !in ids
    ensures Distinct(list) ==> Distinct(WithoutAll(list, ids))
  {
    if ids != [] {
      WithoutAllMeaning(list, ids[..|ids| - 1]);
      WithoutMeaning(WithoutAll(list, ids[..|ids| - 1]), ids[|ids| - 1]);
      assert ids == ids[..|ids| - 1] + [ids[|ids| - 1]];
    }
  }

  ghost predicate AllDistinct(lists: Lists) {
    Distinct(lists.users) && Distinct(lists.chats) && Distinct(lists.admins)
  }

  /** A change alters the membership of its own list by exactly its ids, and keeps lists
      free of duplicates. */
  lemma AppliedMeaning(lists: Lists, change: Change, kind: Kind, x: string)
    ensures x in ListOf(Applied(lists, change), kind) <==>
            (if change.Invite? && change.kind == kind then x in ListOf(lists, kind) || x in change.ids
             else if change.Remove? && change.kind == kind then x in ListOf(lists, kind) && x !in change.ids
             else x in ListOf(lists, kind))
    ensures Applied(lists, change).cachedOwner == if change.CacheOwner? then change.id else lists.cachedOwner
    ensures AllDistinct(lists) ==> AllDistinct(Applied(lists, change))
  {
    if change.Invite? {
      WithAllMeaning(ListOf(lists, change.kind), change.ids);
    } else if change.Remove? {
      WithoutAllMeaning(ListOf(lists, change.kind), change.ids);
    }
  }

  /** Inviting and then removing the same ids leaves the list without them, as if they
      had only been removed. */
  lemma {:induction false} RemoveUndoesInvite(list: seq<string>, ids: seq<string>, more: seq<string>)
    requires forall x :: x in ids ==> x in more
    ensures WithoutAll(WithAll(list, ids), more) == WithoutAll(list, more)
  {
    if ids != [] {
      var front, last := ids[..|ids| - 1], ids[|ids| - 1];
      RemoveUndoesInvite(list, front, more);
      if last !in WithAll(list, front) {
        RemoveAdded(WithAll(list, front), last, more);
      }
    }
  }

  lemma {:induction false} RemoveAdded(list: seq<string>, id: string, ids: seq<string>)
    requires id in ids && id !in list
    ensures WithoutAll(list + [id], ids) == WithoutAll(list, ids)
  {
    var front, last := ids[..|ids| - 1], ids[|ids| - 1];
    assert ids == front + [last];
    if id in front {
      RemoveAdded(list, id, front);
    } else {
      KeepAdded(list, id, front);
      var kept := WithoutAll(list, front);
      assert (kept + [id])[..|kept|] == kept;
    }
  }

  lemma {:induction false} KeepAdded(list: seq<string>, id: string, ids: seq<string>)
    requires id !in ids
    ensures WithoutAll(list + [id], ids) == WithoutAll(list, ids) + [id]
  {
    if ids != [] {
      KeepAdded(list, id, ids[..|ids| - 1]);
      var kept := WithoutAll(list, ids[..|ids| - 1]);
      assert (kept + [id])[..|kept|] == kept;
    }
  }

  // ----- commands -----------------------------------------------------------

  datatype Mention = Mention(openId: string, isBot: bool)

  /** The people mentioned in a message. */
  function PeopleOf(mentions: seq<Mention>): seq<string> {
    if mentions == [] then []
    else
      var last := mentions[|mentions| - 1];
      PeopleOf(mentions[..|mentions| - 1]) + if last.isBot || last.openId == "" then [] else [last.openId]
  }

  method MentionUserTargets(mentions: seq<Mention>) returns (targets: seq<string>)
    ensures targets == PeopleOf(mentions)
    ensures forall id :: id in targets <==> id != "" && Mention(id, false) in mentions
  {
    targets := [];
    for i := 0 to |mentions|
      invariant targets == PeopleOf(mentions[..i])
    {
      assert mentions[..i + 1][..i] == mentions[..i];
      if !mentions[i].isBot && mentions[i].openId != "" {
        targets := targets + [mentions[i].openId];
      }
    }
    assert mentions[..|mentions|] == mentions;
    PeopleMeaning(mentions);
  }

  /** The people are exactly those mentioned who are no bots and have an id. */
  lemma {:induction false} PeopleMeaning(mentions: seq<Mention>)
    ensures forall id :: id in PeopleOf(mentions) <==> id != "" && Mention(id, false) in mentions
  {
    if mentions != [] {
      var front, last := mentions[..|mentions| - 1], mentions[|mentions| - 1];
      PeopleMeaning(front);
      assert mentions == front + [last];
      assert last.isBot || last == Mention(last.openId, false);
    }
  }

  /** The last word that names a kind decides; the words are already lower case. */
  function KindOf(tokens: seq<string>): Option<Kind> {
    if tokens == [] then None
    else if tokens[|tokens| - 1] == "user" then Some(UserKind)
    else if tokens[|tokens| - 1] == "admin" then Some(AdminKind)
    else if tokens[|tokens| - 1] == "group" then Some(GroupKind)
    else KindOf(tokens[..|tokens| - 1])
  }

  datatype Command = Command(inviting: bool, tokens: seq<string>, isPrivate: bool, chat: string, mentions: seq<Mention>)

  /** What an `/invite` or `/remove` asks for, if anything. */
  function ChangeOf(c: Command): Option<Change> {
    var kind := KindOf(c.tokens);
    if c.inviting && "all" in c.tokens && "group" in c.tokens then None
    else if kind.None? then None
    else if kind.value.GroupKind? then
      if c.isPrivate then None
      else Some(if c.inviting then Invite(GroupKind, [c.chat]) else Remove(GroupKind, [c.chat]))
    else if PeopleOf(c.mentions) == [] then None
    else Some(if c.inviting then Invite(kind.value, PeopleOf(c.mentions)) else Remove(kind.value, PeopleOf(c.mentions)))
  }

  // ----- what a command means --------------------------------------------------

  predicate KindWord(word: string) {
    word == "user" || word == "admin" || word == "group"
  }

  /** The last of the words that name a list is `word`. */
  ghost predicate LastWord(tokens: seq<string>, word: string) {
    KindWord(word) && exists i :: 0 <= i < |tokens| && tokens[i] == word && NoKindAfter(tokens, i)
  }

  ghost predicate NoKindAfter(tokens: seq<string>, i: nat) {
    forall k :: i < k < |tokens| ==> !KindWord(tokens[k])
  }

  /** The command names somebody to invite or remove. */
  ghost predicate NamesPeople(c: Command) {
    exists id :: id != "" && Mention(id, false) in c.mentions
  }

  /** The command asks for a change: it names a list, is not the unsupported invite of all
      groups, comes from a group if it is about groups, and names people if it is not. */
  ghost predicate Asks(c: Command) {
    && !(c.inviting && "all" in c.tokens && "group" in c.tokens)
    && ((LastWord(c.tokens, "group") && !c.isPrivate)
        || ((LastWord(c.tokens, "user") || LastWord(c.tokens, "admin")) && NamesPeople(c)))
  }

  /** The command is about this id of the list that `word` names. */
  ghost predicate IsAbout(c: Command, word: string, id: string) {
    LastWord(c.tokens, word) && if word == "group" then id == c.chat else id != "" && Mention(id, false) in c.mentions
  }

  /** A list after the command: an invite adds what the command is about, a remove takes it
      away; a list that is not named stays as it is. */
  ghost predicate Follows(c: Command, word: string, before: seq<string>, after: seq<string>) {
    && (!LastWord(c.tokens, word) ==> after == before)
    && (c.inviting ==> before <= after && forall x :: x in after <==> x in before || IsAbout(c, word, x))
    && (!c.inviting ==> forall x :: x in after <==> x in before && !IsAbout(c, word, x))
  }

  ghost predicate AllFollow(c: Command, before: Lists, after: Lists) {
    && Follows(c, "user", before.users, after.users)
    && Follows(c, "admin", before.admins, after.admins)
    && Follows(c, "group", before.chats, after.chats)
    && after.cachedOwner == before.cachedOwner
  }

  /** Who may change the lists: the owner and the admins, and anybody while nobody is known. */
  ghost predicate MayManage(lists: Lists, owner: string, sender: string) {
    || (sender != "" && (sender == owner || sender in lists.admins))
    || (owner == "" && lists.users == [] && lists.chats == [] && lists.admins == [])
  }

  ghost function WordOf(kind: Kind): string {
    match kind
    case UserKind => "user"
    case AdminKind => "admin"
    case GroupKind => "group"
  }

  lemma {:induction false} KindMeaning(tokens: seq<string>)
    ensures KindOf(tokens) == Some(UserKind) <==> LastWord(tokens, "user")
    ensures KindOf(tokens) == Some(AdminKind) <==> LastWord(tokens, "admin")
    ensures KindOf(tokens) == Some(GroupKind) <==> LastWord(tokens, "group")
  {
    if tokens != [] {
      var front, last := tokens[..|tokens| - 1], tokens[|tokens| - 1];
      assert tokens == front + [last];
      KindMeaning(front);
      LastWordSnoc(front, last, "user");
      LastWordSnoc(front, last, "admin");
      LastWordSnoc(front, last, "group");
    }
  }

  lemma LastWordSnoc(front: seq<string>, last: string, word: string)
    ensures LastWord(front + [last], word) <==>
            (KindWord(last) && last == word) || (!KindWord(last) && LastWord(front, word))
  {
    var tokens := front + [last];
    if KindWord(last) && last == word {
      assert tokens[|front|] == word && NoKindAfter(tokens, |front|);
    }
    if !KindWord(last) && LastWord(front, word) {
      var i :| 0 <= i < |front| && front[i] == word && NoKindAfter(front, i);
      assert tokens[i] == word && NoKindAfter(tokens, i);
    }
    if LastWord(tokens, word) {
      var i :| 0 <= i < |tokens| && tokens[i] == word && NoKindAfter(tokens, i);
      if i < |front| {
        assert tokens[|front|] == last && front[i] == word;
        assert forall k :: i < k < |front| ==> front[k] == tokens[k];
        assert NoKindAfter(front, i);
      }
    }
  }

  /** A command asks for a change exactly as described, and the change is about exactly the
      ids the command is about. */
  lemma ChangeMeaning(c: Command)
    ensures ChangeOf(c).Some? <==> Asks(c)
    ensures ChangeOf(c).Some? ==>
              var change := ChangeOf(c).value;
              && !change.CacheOwner? && (change.Invite? <==> c.inviting)
              && LastWord(c.tokens, WordOf(change.kind))
              && (forall id :: id in change.ids <==> IsAbout(c, WordOf(change.kind), id))
              && (forall word :: word != WordOf(change.kind) ==> !LastWord(c.tokens, word))
  {
    KindMeaning(c.tokens);
    PeopleMeaning(c.mentions);
    if PeopleOf(c.mentions) != [] {
      assert PeopleOf(c.mentions)[0] in PeopleOf(c.mentions);
    }
  }

  lemma ChangeFollows(c: Command, lists: Lists)
    requires ChangeOf(c).Some?
    ensures AllFollow(c, lists, Applied(lists, ChangeOf(c).value))
  {
    var change := ChangeOf(c).value;
    ChangeMeaning(c);
    if change.Invite? {
      WithAllMeaning(ListOf(lists, change.kind), change.ids);
    } else {
      WithoutAllMeaning(ListOf(lists, change.kind), change.ids);
    }
  }

  /** The bridge: the owner in memory, the saved lists and the live ones. */
  class AccessControl {
    var owner: string
    var saved: Lists
    var live: Lists

    /** `RefreshOwner`; the answer of the application service is never an empty id.
        Returns whether the cache is to be rewritten. */
    method RefreshOwner(answer: Option<string>) returns (persist: bool)
      requires answer.Some? ==> answer.value != ""
      modifies this`owner
      ensures owner == RefreshedOwner(old(owner), live, answer)
      ensures answer.Some? ==> owner == answer.value
      ensures answer.None? ==> owner == if old(owner) != "" then old(owner) else live.cachedOwner
      ensures persist <==> answer.Some? && (old(owner) != answer.value || live.cachedOwner != answer.value)
    {
      if answer.None? {
        if owner == "" {
          owner := live.cachedOwner;
        }
        return false;
      }
      var previous := owner;
      owner := answer.value;
      persist := previous != owner || live.cachedOwner != owner;
    }

    /** `mutateAccess`: load, change, save, take over. */
    method MutateAccess(change: Change, loads: bool, saves: bool) returns (ok: bool)
      modifies this`saved, this`live
      ensures ok <==> loads && saves
      ensures saved == if ok then Applied(old(saved), change) else old(saved)
      ensures live == if ok then saved else old(live)
    {
      if !loads {
        return false;
      }
      var lists := saved;
      match change {
        case Invite(kind, ids) =>
          var list := ListOf(lists, kind);
          for i := 0 to |ids|
            invariant unchanged(this) && list == WithAll(ListOf(lists, kind), ids[..i])
          {
            assert ids[..i + 1][..i] == ids[..i];
            var added;
            list, added := AddUnique(list, ids[i]);
          }
          assert ids[..|ids|] == ids;
          lists := WithList(lists, kind, list);
        case Remove(kind, ids) =>
          var list := ListOf(lists, kind);
          for i := 0 to |ids|
            invariant unchanged(this) && list == WithoutAll(ListOf(lists, kind), ids[..i])
          {
            assert ids[..i + 1][..i] == ids[..i];
            var removed;
            list, removed := RemoveId(list, ids[i]);
          }
          assert ids[..|ids|] == ids;
          lists := WithList(lists, kind, list);
        case CacheOwner(id) =>
          lists := lists.(cachedOwner := id);
      }
      if !saves {
        return false;
      }
      saved := lists;
      live := lists;
      return true;
    }

    /** `handleInvite` and `handleRemove`. */
    method Handle(sender: string, c: Command, loads: bool, saves: bool) returns (changed: bool)
      modifies this`saved, this`live
      ensures changed <==> MayManage(old(live), owner, sender) && Asks(c) && loads && saves
      ensures changed ==> saved == live && AllFollow(c, old(saved), saved)
      ensures changed ==> ChangeOf(c).Some? && saved == Applied(old(saved), ChangeOf(c).value)
      ensures !changed ==> saved == old(saved) && live == old(live)
    {
      ChangeMeaning(c);
      AccessIsExact(live, owner, "", sender);
      if !CanRunAdminCommand(live, owner, sender).ok || ChangeOf(c).None? {
        return false;
      }
      ChangeFollows(c, saved);
      changed := MutateAccess(ChangeOf(c).value, loads, saves);
    }
  }

  function RefreshedOwner(owner: string, live: Lists, answer: Option<string>): string {
    if answer.Some? then answer.value else if owner == "" then live.cachedOwner else owner
  }

  // ----- interleavings ------------------------------------------------------

  /** A command between its sections. */
  datatype Task =
    | Checked(change: Change)
    | Loaded(change: Change, base: Lists)
    | Stored(result: Lists)
    | Over

  /** `changes` (history) lists the changes in the order they were saved, `lossy` says
      that some save was lossy. */
  datatype State = State(
    owner: string, saved: Lists, live: Lists, tasks: map<nat, Task>, changes: seq<Change>, lossy: bool)

  /** The save of a change computed from `base` overwrites something in `saved`: applied to
      the lists as they are by now, the change would have come out differently. */
  predicate Lossy(base: Lists, saved: Lists, change: Change) {
    Applied(base, change) != Applied(saved, change)
  }

  ghost function Booted(owner: string, lists: Lists): State {
    State(owner, lists, lists, map[], [], false)
  }

  datatype Action =
    | Check(n: nat, sender: string, command: Command)
    | Refresh(n: nat, answer: Option<string>)
    | Load(n: nat, ok: bool)
    | Save(n: nat, ok: bool)
    | TakeOver(n: nat)

  ghost function Go(s: State, n: nat, t: Task): State {
    s.(tasks := s.tasks[n := t])
  }

  ghost function Step(s: State, a: Action): State {
    match a
    case Check(n, sender, c) =>
      if n in s.tasks || !CanRunAdminCommand(s.live, s.owner, sender).ok || ChangeOf(c).None? then s
      else Go(s, n, Checked(ChangeOf(c).value))
    case Refresh(n, answer) =>
      if n in s.tasks || (answer.Some? && answer.value == "") then s
      else
        var t := s.(owner := RefreshedOwner(s.owner, s.live, answer));
        if answer.Some? && (s.owner != answer.value || s.live.cachedOwner != answer.value)
        then Go(t, n, Checked(CacheOwner(answer.value))) else t
    case Load(n, ok) =>
      if n !in s.tasks || !s.tasks[n].Checked? then s
      else Go(s, n, if ok then Loaded(s.tasks[n].change, s.saved) else Over)
    case Save(n, ok) =>
      if n !in s.tasks || !s.tasks[n].Loaded? then s
      else if !ok then Go(s, n, Over)
      else
        var t := s.tasks[n];
        var result := Applied(t.base, t.change);
        Go(s, n, Stored(result))
          .(saved := result, changes := s.changes + [t.change], lossy := s.lossy || Lossy(t.base, s.saved, t.change))
    case TakeOver(n) =>
      if n !in s.tasks || !s.tasks[n].Stored? then s else Go(s, n, Over).(live := s.tasks[n].result)
  }

  ghost function Run(start: State, actions: seq<Action>): State {
    if actions == [] then start else Step(Run(start, actions[..|actions| - 1]), actions[|actions| - 1])
  }

  /** Everything that is or may become the lists is free of duplicates. */
  ghost predicate NoDuplicates(s: State) {
    && AllDistinct(s.saved) && AllDistinct(s.live)
    && (forall n :: n in s.tasks && s.tasks[n].Loaded? ==> AllDistinct(s.tasks[n].base))
    && (forall n :: n in s.tasks && s.tasks[n].Stored? ==> AllDistinct(s.tasks[n].result))
  }

  // ----- theorems -----------------------------------------------------------

  /** A known owner stays known. */
  lemma {:induction false} OwnerStaysKnown(start: State, actions: seq<Action>)
    requires start.owner != ""
    ensures Run(start, actions).owner != ""
  {
    if actions != [] {
      OwnerStaysKnown(start, actions[..|actions| - 1]);
    }
  }

  /** Private messages are open to exactly the owner, the users and the admins; groups to
      the owner, the admins and the listed chats; commands to the owner and the admins. As
      long as nobody is known at all everything is open. */
  lemma AccessIsExact(lists: Lists, owner: string, chat: string, sender: string)
    ensures var open := owner == "" && lists.users == [] && lists.chats == [] && lists.admins == [];
            var boss := sender != "" && (sender == owner || sender in lists.admins);
            var user := sender != "" && sender in lists.users;
            var group := chat != "" && chat in lists.chats;
            && (CanRunAdminCommand(lists, owner, sender).ok <==> boss || open)
            && (CanRunAdminCommand(lists, owner, sender).ok <==> MayManage(lists, owner, sender))
            && (CanUseDM(lists, owner, sender).ok <==> boss || user || open)
            && (CanUseGroup(lists, owner, chat, sender).ok <==> boss || group || open)
  {
  }

  /** The reason that is given is the first that holds: owner, then listed, then open. */
  lemma ReasonsAreExact(lists: Lists, owner: string, chat: string, sender: string)
    ensures var creator := sender != "" && sender == owner;
            var user := sender != "" && sender in lists.users;
            var admin := sender != "" && sender in lists.admins;
            var group := chat != "" && chat in lists.chats;
            var (dm, room, command) := (CanUseDM(lists, owner, sender), CanUseGroup(lists, owner, chat, sender),
                                        CanRunAdminCommand(lists, owner, sender));
            && (dm.reason == AllowedUser <==> user && !creator)
            && (dm.reason == AllowedAdmin <==> admin && !creator && !user)
            && (dm.reason == DeniedUser <==> !dm.ok)
            && (dm.reason == Owner <==> dm.ok && (creator || (!user && !admin)))
            && (room.reason == AllowedAdmin <==> admin && !creator)
            && (room.reason == AllowedChat <==> group && !creator && !admin)
            && (room.reason == DeniedChat <==> !room.ok)
            && (room.reason == Owner <==> room.ok && (creator || (!admin && !group)))
            && (command.reason == AllowedAdmin <==> admin && !creator)
            && (command.reason == DeniedAdmin <==> !command.ok)
            && (command.reason == Owner <==> command.ok && (creator || !admin))
  {
  }

  /** Hence whoever owns the bot can always reach it and manage it. */
  lemma OwnerIsNeverLockedOut(start: State, actions: seq<Action>, chat: string)
    requires start.owner != ""
    ensures var s := Run(start, actions);
            && CanUseDM(s.live, s.owner, s.owner) == Decision(true, Owner)
            && CanUseGroup(s.live, s.owner, chat, s.owner) == Decision(true, Owner)
            && CanRunAdminCommand(s.live, s.owner, s.owner) == Decision(true, Owner)
  {
    OwnerStaysKnown(start, actions);
  }

  /** Lists that start without duplicates stay so, whatever interleaves. */
  lemma {:induction false} ListsStayDistinct(owner: string, lists: Lists, actions: seq<Action>)
    requires AllDistinct(lists)
    ensures NoDuplicates(Run(Booted(owner, lists), actions))
  {
    if actions != [] {
      var s, a := Run(Booted(owner, lists), actions[..|actions| - 1]), actions[|actions| - 1];
      ListsStayDistinct(owner, lists, actions[..|actions| - 1]);
      if a.Save? && a.n in s.tasks && s.tasks[a.n].Loaded? {
        AppliedMeaning(s.tasks[a.n].base, s.tasks[a.n].change, UserKind, "");
      }
    }
  }

  /** In state `s`, `a` is the check of an invite of `id` by the owner or an admin. */
  ghost predicate Invites(s: State, a: Action, kind: Kind, id: string) {
    && a.Check? && a.command.inviting && Asks(a.command) && IsAbout(a.command, WordOf(kind), id)
    && a.sender != "" && (a.sender == s.owner || a.sender in s.live.admins)
  }

  /** Some step of the run was such a check. */
  ghost predicate Invited(start: State, actions: seq<Action>, kind: Kind, id: string) {
    exists n: nat :: n < |actions| && Invites(Run(start, actions[..n]), actions[n], kind, id)
  }

  /** Nothing lists `id` that did not from the start, and no invite of it is on its way. */
  ghost predicate Untouched(s: State, initial: Lists, kind: Kind, id: string) {
    id !in ListOf(initial, kind) ==>
      && id !in ListOf(s.saved, kind) && id !in ListOf(s.live, kind)
      && (forall n :: n in s.tasks ==> Innocent(s.tasks[n], kind, id))
  }

  ghost predicate Innocent(t: Task, kind: Kind, id: string) {
    && (t.Loaded? ==> id !in ListOf(t.base, kind))
    && (t.Stored? ==> id !in ListOf(t.result, kind))
    && ((t.Checked? || t.Loaded?) && t.change.Invite? && t.change.kind == kind ==> id !in t.change.ids)
  }

  lemma UntouchedStep(s: State, a: Action, initial: Lists, kind: Kind, id: string)
    requires s.owner != "" && Untouched(s, initial, kind, id) && !Invites(s, a, kind, id)
    ensures Untouched(Step(s, a), initial, kind, id)
  {
    if a.Save? && a.n in s.tasks && s.tasks[a.n].Loaded? {
      AppliedMeaning(s.tasks[a.n].base, s.tasks[a.n].change, kind, id);
    } else if a.Check? {
      ChangeMeaning(a.command);
    }
  }

  lemma InvitedGrows(start: State, actions: seq<Action>, kind: Kind, id: string)
    requires actions != []
    ensures Invited(start, actions[..|actions| - 1], kind, id) ==> Invited(start, actions, kind, id)
  {
    var front := actions[..|actions| - 1];
    if Invited(start, front, kind, id) {
      var n: nat :| n < |front| && Invites(Run(start, front[..n]), front[n], kind, id);
      assert actions[..n] == front[..n] && actions[n] == front[n];
    }
  }

  lemma {:induction false} UntouchedUnlessInvited(owner: string, initial: Lists, actions: seq<Action>,
                                                  kind: Kind, id: string)
    requires owner != "" && !Invited(Booted(owner, initial), actions, kind, id)
    ensures Untouched(Run(Booted(owner, initial), actions), initial, kind, id)
  {
    if actions != [] {
      var start, front, a := Booted(owner, initial), actions[..|actions| - 1], actions[|actions| - 1];
      InvitedGrows(start, actions, kind, id);
      UntouchedUnlessInvited(owner, initial, front, kind, id);
      OwnerStaysKnown(start, front);
      assert actions[..|front|] == front && actions[|front|] == a;
      UntouchedStep(Run(start, front), a, initial, kind, id);
    }
  }

  /** Every id listed, live or saved, was there from the start or was invited by somebody
      who was the owner or an admin when the command was checked. */
  lemma EveryEntryWasInvited(owner: string, initial: Lists, actions: seq<Action>, kind: Kind, id: string)
    requires owner != ""
    requires var s := Run(Booted(owner, initial), actions); id in ListOf(s.live, kind) || id in ListOf(s.saved, kind)
    ensures id in ListOf(initial, kind) || Invited(Booted(owner, initial), actions, kind, id)
  {
    if !Invited(Booted(owner, initial), actions, kind, id) {
      UntouchedUnlessInvited(owner, initial, actions, kind, id);
    }
  }

  ghost function ApplyAll(lists: Lists, changes: seq<Change>): Lists {
    if changes == [] then lists else Applied(ApplyAll(lists, changes[..|changes| - 1]), changes[|changes| - 1])
  }

  /** The saved lists are all changes so far, applied in order. */
  ghost predicate Composed(start: State, actions: seq<Action>) {
    Run(start, actions).saved == ApplyAll(start.saved, Run(start, actions).changes)
  }

  lemma {:induction false} LosslessRunsCompose(owner: string, lists: Lists, actions: seq<Action>)
    ensures !Run(Booted(owner, lists), actions).lossy ==> Composed(Booted(owner, lists), actions)
  {
    if actions != [] {
      var s, a := Run(Booted(owner, lists), actions[..|actions| - 1]), actions[|actions| - 1];
      LosslessRunsCompose(owner, lists, actions[..|actions| - 1]);
      if a.Save? && a.n in s.tasks && s.tasks[a.n].Loaded? {
        assert (s.changes + [s.tasks[a.n].change])[..|s.changes|] == s.changes;
      }
    }
  }

  lemma {:induction false} LossyStays(start: State, actions: seq<Action>, n: nat)
    requires n <= |actions| && Run(start, actions[..n]).lossy
    ensures Run(start, actions).lossy
  {
    if n == |actions| {
      assert actions[..n] == actions;
    } else {
      var front := actions[..|actions| - 1];
      assert front[..n] == actions[..n];
      LossyStays(start, front, n);
    }
  }

  /** The first lossy save leaves the changes and the lists apart. */
  lemma {:induction false} LossyMeansLost(owner: string, lists: Lists, actions: seq<Action>) returns (n: nat)
    requires Run(Booted(owner, lists), actions).lossy
    ensures n <= |actions| && !Composed(Booted(owner, lists), actions[..n])
  {
    var start, front, a := Booted(owner, lists), actions[..|actions| - 1], actions[|actions| - 1];
    if Run(start, front).lossy {
      n := LossyMeansLost(owner, lists, front);
      assert front[..n] == actions[..n];
    } else {
      n := |actions|;
      assert actions[..n] == actions;
      LosslessRunsCompose(owner, lists, front);
      var s := Run(start, front);
      assert (s.changes + [s.tasks[a.n].change])[..|s.changes|] == s.changes;
    }
  }

  /** No change is ever lost - at every moment the saved lists are all changes in order -
      exactly when no save is lossy. */
  lemma NoChangeLost(owner: string, lists: Lists, actions: seq<Action>)
    ensures (forall n :: 0 <= n <= |actions| ==> Composed(Booted(owner, lists), actions[..n]))
            <==> !Run(Booted(owner, lists), actions).lossy
  {
    if Run(Booted(owner, lists), actions).lossy {
      var n := LossyMeansLost(owner, lists, actions);
    } else {
      forall n | 0 <= n <= |actions| ensures Composed(Booted(owner, lists), actions[..n]) {
        if Run(Booted(owner, lists), actions[..n]).lossy {
          LossyStays(Booted(owner, lists), actions, n);
        }
        LosslessRunsCompose(owner, lists, actions[..n]);
      }
    }
  }

  /** `a` is no successful save, or it saves a change of the lists as they are. */
  ghost predicate Fresh(s: State, a: Action) {
    a.Save? && a.ok && a.n in s.tasks && s.tasks[a.n].Loaded? ==> s.tasks[a.n].base == s.saved
  }

  /** What callers can arrange: if nothing is saved between the load and the save of a
      command, no save is lossy and so no change is lost. */
  lemma {:induction false} FreshSavesLoseNothing(owner: string, lists: Lists, actions: seq<Action>)
    requires forall n: nat :: n < |actions| ==> Fresh(Run(Booted(owner, lists), actions[..n]), actions[n])
    ensures !Run(Booted(owner, lists), actions).lossy && Composed(Booted(owner, lists), actions)
  {
    if actions != [] {
      var front := actions[..|actions| - 1];
      forall n: nat | n < |front| ensures Fresh(Run(Booted(owner, lists), front[..n]), front[n]) {
        assert front[..n] == actions[..n];
        assert Fresh(Run(Booted(owner, lists), actions[..n]), actions[n]);
      }
      FreshSavesLoseNothing(owner, lists, front);
      assert Fresh(Run(Booted(owner, lists), actions[..|front|]), actions[|front|]);
    }
    LosslessRunsCompose(owner, lists, actions);
  }

  /** So an invite that was confirmed can vanish: two commands load the same lists, and
      the second save overwrites the first. */
  lemma StaleSaveLosesInvite(owner: string, a: string, b: string) returns (actions: seq<Action>)
    requires owner != "" && a != "" && b != "" && a != b
    ensures var s := Run(Booted(owner, Lists([], [], [], owner)), actions);
            && s.lossy && s.changes == [Invite(UserKind, [a]), Invite(UserKind, [b])]
            && s.saved.users == s.live.users == [b]
            && forall n :: n in s.tasks ==> s.tasks[n].Over?
  {
    var start := Booted(owner, Lists([], [], [], owner));
    actions := BothLoaded(owner, a, b);
    InviteOne(a);
    InviteOne(b);
    OverwritingInvite(start.saved, a, b);
    SavedAndTakenOver(Run(start, actions), 0);
    actions := Then(start, actions, Save(0, true));
    actions := Then(start, actions, TakeOver(0));
    SavedAndTakenOver(Run(start, actions), 1);
    actions := Then(start, actions, Save(1, true));
    actions := Then(start, actions, TakeOver(1));
  }

  /** Inviting `b` into lists without `a` differs from inviting it into lists with `a`. */
  lemma OverwritingInvite(empty: Lists, a: string, b: string)
    requires a != b && empty.users == []
    ensures Applied(empty, Invite(UserKind, [a])) == empty.(users := [a])
    ensures Applied(empty, Invite(UserKind, [b])) == empty.(users := [b])
    ensures Lossy(empty, empty.(users := [a]), Invite(UserKind, [b]))
    ensures !Lossy(empty, empty, Invite(UserKind, [a]))
  {
    InvitedInto([], a);
    InvitedInto([], b);
    InvitedInto([a], b);
    assert |[a] + [b]| == 2;
  }

  lemma InvitedInto(list: seq<string>, id: string)
    requires id !in list
    ensures WithAll(list, [id]) == list + [id]
  {
    assert [id][..0] == [];
  }

  lemma BothLoaded(owner: string, a: string, b: string) returns (actions: seq<Action>)
    requires owner != "" && a != "" && b != ""
    ensures var start := Booted(owner, Lists([], [], [], owner));
            Run(start, actions) == start.(tasks :=
              map[0 := Loaded(Invite(UserKind, [a]), start.saved), 1 := Loaded(Invite(UserKind, [b]), start.saved)])
  {
    var start := Booted(owner, Lists([], [], [], owner));
    InviteOne(a);
    InviteOne(b);
    actions := Then(start, [], Check(0, owner, Command(true, ["user"], true, "", [Mention(a, false)])));
    actions := Then(start, actions, Check(1, owner, Command(true, ["user"], true, "", [Mention(b, false)])));
    actions := Then(start, actions, Load(0, true));
    actions := Then(start, actions, Load(1, true));
  }

  lemma SavedAndTakenOver(s: State, n: nat)
    requires n in s.tasks && s.tasks[n].Loaded?
    ensures var t := s.tasks[n];
            var result := Applied(t.base, t.change);
            Step(Step(s, Save(n, true)), TakeOver(n)) ==
            State(s.owner, result, result, s.tasks[n := Over], s.changes + [t.change],
                  s.lossy || Lossy(t.base, s.saved, t.change))
  {
    var saved := Step(s, Save(n, true));
    assert saved.tasks[n := Over] == s.tasks[n := Over];
  }

  lemma Then(start: State, actions: seq<Action>, a: Action) returns (more: seq<Action>)
    ensures Run(start, more) == Step(Run(start, actions), a)
  {
    more := actions + [a];
    assert more[..|actions|] == actions;
  }

  lemma InviteOne(id: string)
    requires id != ""
    ensures ChangeOf(Command(true, ["user"], true, "", [Mention(id, false)])) == Some(Invite(UserKind, [id]))
  {
    var mentions := [Mention(id, false)];
    assert mentions[..0] == [] && PeopleOf(mentions) == [] + [id] == [id];
    assert KindOf(["user"]) == Some(UserKind);
  }

  /** A command of somebody who may give it, and that asks for something, takes effect if
      it is not disturbed: saved and live lists are the old saved ones with exactly what
      the command is about added or taken away. */
  lemma CommandTakesEffect(start: State, actions: seq<Action>, n: nat, sender: string, c: Command)
    requires n !in Run(start, actions).tasks && Asks(c)
    requires MayManage(Run(start, actions).live, Run(start, actions).owner, sender)
    ensures var (s, t) := (Run(start, actions),
                           Run(start, actions + [Check(n, sender, c), Load(n, true), Save(n, true), TakeOver(n)]));
            && t.live == t.saved && AllFollow(c, s.saved, t.saved) && t.owner == s.owner
  {
    var s := Run(start, actions);
    ChangeMeaning(c);
    ChangeFollows(c, s.saved);
    AccessIsExact(s.live, s.owner, "", sender);
    RunFour(start, actions, Check(n, sender, c), Load(n, true), Save(n, true), TakeOver(n));
    TaskRuns(Step(s, Check(n, sender, c)), n);
  }

  /** A command that is refused, or asks for nothing, changes nothing. */
  lemma RefusedChangesNothing(start: State, actions: seq<Action>, n: nat, sender: string, c: Command)
    requires !Asks(c) || !MayManage(Run(start, actions).live, Run(start, actions).owner, sender)
    ensures Run(start, actions + [Check(n, sender, c)]) == Run(start, actions)
  {
    ChangeMeaning(c);
    AccessIsExact(Run(start, actions).live, Run(start, actions).owner, "", sender);
    RunOne(start, actions, Check(n, sender, c));
  }

  /** The owner the service answers with is known at once, and cached if nothing disturbs. */
  lemma RefreshIsCached(start: State, actions: seq<Action>, n: nat, id: string)
    requires n !in Run(start, actions).tasks && id != ""
    ensures var s := Run(start, actions);
            var t := Run(start, actions + [Refresh(n, Some(id)), Load(n, true), Save(n, true), TakeOver(n)]);
            && t.owner == id && t.live.cachedOwner == id
            && Run(start, actions + [Refresh(n, None)]).owner ==
               if s.owner != "" then s.owner else s.live.cachedOwner
  {
    var s := Run(start, actions);
    RunOne(start, actions, Refresh(n, None));
    RunFour(start, actions, Refresh(n, Some(id)), Load(n, true), Save(n, true), TakeOver(n));
    if s.owner != id || s.live.cachedOwner != id {
      TaskRuns(Step(s, Refresh(n, Some(id))), n);
    }
  }

  /** A checked task is loaded, saved and taken over. */
  lemma TaskRuns(s: State, n: nat)
    requires n in s.tasks && s.tasks[n].Checked?
    ensures var t := Step(Step(Step(s, Load(n, true)), Save(n, true)), TakeOver(n));
            t.saved == t.live == Applied(s.saved, s.tasks[n].change) && t.owner == s.owner
  {
  }

  lemma RunOne(start: State, actions: seq<Action>, a: Action)
    ensures Run(start, actions + [a]) == Step(Run(start, actions), a)
  {
    assert (actions + [a])[..|actions|] == actions;
  }

  lemma RunFour(start: State, actions: seq<Action>, a: Action, b: Action, c: Action, d: Action)
    ensures Run(start, actions + [a, b, c, d]) == Step(Step(Step(Step(Run(start, actions), a), b), c), d)
  {
    RunTwo(start, actions, a, b);
    RunTwo(start, actions + [a, b], c, d);
    assert actions + [a, b, c, d] == (actions + [a, b]) + [c, d];
  }

  lemma RunTwo(start: State, actions: seq<Action>, a: Action, b: Action)
    ensures Run(start, actions + [a, b]) == Step(Step(Run(start, actions), a), b)
  {
    RunOne(start, actions, a);
    RunOne(start, actions + [a], b);
    assert actions + [a, b] == (actions + [a]) + [b];
  }
}
