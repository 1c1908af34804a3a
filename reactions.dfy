/** Emoji reactions with click, unclick and toggle handlers, and the process-wide registry of
    (message, reaction) pairs through which reaction events on messages reach those handlers.
    Handlers are kept as data of type `H`: firing a reaction returns the handlers it calls, in the
    order they are called, and the caller gives them meaning. */
module Reactions {
  import opened Wrappers

  type MessageId = nat
  type UserId = nat

  /** The shapes a handler argument can take: None, a single callable, an iterable of callables,
      or something that is neither callable nor iterable. */
  datatype HandlerArg<H> = NoHandler | Single(handler: H) | Many(handlers: seq<H>) | NotIterable

  /** The emoji argument: a string, or some other object. */
  datatype EmojiArg = Str(text: string) | NotStr

  /** What a constructed Reaction holds. */
  datatype ReactionConfig<H> = ReactionConfig(
    emoji: string,
    clicks: seq<H>,
    unclicks: seq<H>,
    toggles: seq<H>,
    oncePerMessage: bool)

  /** A handler argument normalised to a tuple; TypeError when it is not iterable. */
  function NormaliseHandlers<H>(a: HandlerArg<H>): (r: Result<seq<H>, string>)
    ensures r.Err? <==> a.NotIterable?
    ensures a.NoHandler? ==> r == Ok([])
    ensures a.Single? ==> r == Ok([a.handler])
    ensures a.Many? ==> r == Ok(a.handlers)
  {
    match a
    case NoHandler => Ok([])
    case Single(h) => Ok([h])
    case Many(hs) => Ok(hs)
    case NotIterable => Err("handlers must be a callable or list of callables")
  }

  /** Validation done by the Reaction constructor: the emoji must be a string, then each handler
      argument must normalise. */
  function MakeConfig<H>(emoji: EmojiArg, click: HandlerArg<H>, unclick: HandlerArg<H>,
                         toggle: HandlerArg<H>, once: bool): (r: Result<ReactionConfig<H>, string>)
    ensures emoji.NotStr? ==> r == Err("reaction must be a string")
    ensures r.Ok? <==> emoji.Str? && !click.NotIterable? && !unclick.NotIterable? && !toggle.NotIterable?
    ensures r.Ok? ==> r.value.emoji == emoji.text && r.value.oncePerMessage == once
    ensures r.Ok? ==> Ok(r.value.clicks) == NormaliseHandlers(click)
                      && Ok(r.value.unclicks) == NormaliseHandlers(unclick)
                      && Ok(r.value.toggles) == NormaliseHandlers(toggle)
  {
    if emoji.NotStr? then Err("reaction must be a string")
    else
      match (NormaliseHandlers(click), NormaliseHandlers(unclick), NormaliseHandlers(toggle))
      case (Ok(c), Ok(u), Ok(t)) => Ok(ReactionConfig(emoji.text, c, u, t, once))
      case _ => Err("handlers must be a callable or list of callables")
  }

  /** A reaction with its handlers and the messages it has been registered on. */
  class Reaction<H> {
    const emoji: string
    const clicks: seq<H>
    const unclicks: seq<H>
    const toggles: seq<H>
    const oncePerMessage: bool
    /** Every message this reaction was registered on; unregistering never shortens it. */
    var registered: seq<MessageId>

    constructor (c: ReactionConfig<H>)
      ensures emoji == c.emoji && clicks == c.clicks && unclicks == c.unclicks
      ensures toggles == c.toggles && oncePerMessage == c.oncePerMessage
      ensures registered == []
    {
      emoji, clicks, unclicks, toggles := c.emoji, c.clicks, c.unclicks, c.toggles;
      oncePerMessage, registered := c.oncePerMessage, [];
    }
  }

  /** `Reaction(...)`: a fresh reaction, or the TypeError the constructor raises. */
  method NewReaction<H>(emoji: EmojiArg, click: HandlerArg<H>, unclick: HandlerArg<H>,
                        toggle: HandlerArg<H>, once: bool) returns (r: Result<Reaction<H>, string>)
    ensures r.Ok? <==> MakeConfig(emoji, click, unclick, toggle, once).Ok?
    ensures r.Err? ==> r.error == MakeConfig(emoji, click, unclick, toggle, once).error
    ensures r.Ok? ==> fresh(r.value) && r.value.registered == []
    ensures r.Ok? ==>
      MakeConfig(emoji, click, unclick, toggle, once).value ==
      ReactionConfig(r.value.emoji, r.value.clicks, r.value.unclicks, r.value.toggles, r.value.oncePerMessage)
  {
    var c := MakeConfig(emoji, click, unclick, toggle, once);
    if c.Err? {
      return Err(c.error);
    }
    var reaction := new Reaction(c.value);
    return Ok(reaction);
  }

  type Registration<H> = (MessageId, Reaction<H>)

  predicate NoDuplicates<T(==)>(l: seq<T>) {
    forall i, j :: 0 <= i < j < |l| ==> l[i] != l[j]
  }

  /** `l.remove(x)`: the first occurrence of `x` taken out. */
  function RemoveFirst<T(==)>(l: seq<T>, x: T): (r: seq<T>)
    ensures x in l ==> |r| == |l| - 1
    ensures x !in l ==> r == l
    ensures forall y :: y in r ==> y in l
    ensures forall y :: y in l && y != x ==> y in r
  {
    if l == [] then []
    else if l[0] == x then l[1..]
    else [l[0]] + RemoveFirst(l[1..], x)
  }

  /** Every occurrence of `x` taken out. */
  function Without<T(==)>(l: seq<T>, x: T): (r: seq<T>)
    ensures x !in r
    ensures forall y :: y in l && y != x ==> y in r
    ensures forall y :: y in r ==> y in l
  {
    if l == [] then [] else (if l[0] == x then [] else [l[0]]) + Without(l[1..], x)
  }

  /** The loop of `unregister_message`: walk the list by index and, at each entry equal to `x`,
      `remove` the first occurrence of `x`; the walk goes on at the next index, so the entry that
      slides into the removed slot is not looked at. */
  function UnregisterFrom<T(==)>(l: seq<T>, x: T, i: nat): (r: seq<T>)
    ensures |r| <= |l|
    ensures x !in l ==> r == l
    ensures forall y :: y in r ==> y in l
    ensures forall y :: y in l && y != x ==> y in r
    decreases |l| - i
  {
    if i >= |l| then l
    else if l[i] == x then UnregisterFrom(RemoveFirst(l, x), x, i + 1)
    else UnregisterFrom(l, x, i + 1)
  }

  lemma {:induction false} WithoutRemoveFirst<T>(l: seq<T>, x: T)
    ensures Without(RemoveFirst(l, x), x) == Without(l, x)
  {
    if l != [] && l[0] != x {
      WithoutRemoveFirst(l[1..], x);
      assert RemoveFirst(l, x)[1..] == RemoveFirst(l[1..], x);
    }
  }

  /** Unregistering never touches an entry other than the one being unregistered: the other
      entries stay, in their order. */
  lemma {:induction false} UnregisterKeepsOthers<T>(l: seq<T>, x: T, i: nat)
    ensures Without(UnregisterFrom(l, x, i), x) == Without(l, x)
    decreases |l| - i
  {
    if i < |l| {
      if l[i] == x {
        UnregisterKeepsOthers(RemoveFirst(l, x), x, i + 1);
        WithoutRemoveFirst(l, x);
      } else {
        UnregisterKeepsOthers(l, x, i + 1);
      }
    }
  }

  lemma {:induction false} RemoveFirstUnique<T>(l: seq<T>, x: T)
    requires NoDuplicates(l)
    ensures RemoveFirst(l, x) == Without(l, x)
  {
    if l != [] {
      if l[0] == x {
        assert x !in l[1..];
        WithoutAbsent(l[1..], x);
      } else {
        RemoveFirstUnique(l[1..], x);
      }
    }
  }

  lemma {:induction false} WithoutAbsent<T>(l: seq<T>, x: T)
    requires x !in l
    ensures Without(l, x) == l
  {
    if l != [] {
      WithoutAbsent(l[1..], x);
      assert [l[0]] + l[1..] == l;
    }
  }

  lemma {:induction false} UnregisterFromAbsent<T>(l: seq<T>, x: T, i: nat)
    requires x !in l
    ensures UnregisterFrom(l, x, i) == l
    decreases |l| - i
  {
    if i < |l| {
      UnregisterFromAbsent(l, x, i + 1);
    }
  }

  /** With no duplicate registrations, unregistering removes the pair entirely. */
  lemma UnregisterUnique<T>(l: seq<T>, x: T)
    requires NoDuplicates(l)
    ensures UnregisterFrom(l, x, 0) == Without(l, x)
  {
    if x in l {
      var j :| 0 <= j < |l| && l[j] == x;
      UnregisterSkipsTo(l, x, 0, j);
      RemoveFirstUnique(l, x);
      assert x !in RemoveFirst(l, x);
      UnregisterFromAbsent(RemoveFirst(l, x), x, j + 1);
    } else {
      UnregisterFromAbsent(l, x, 0);
      WithoutAbsent(l, x);
    }
  }

  lemma {:induction false} UnregisterSkipsTo<T>(l: seq<T>, x: T, i: nat, j: nat)
    requires i <= j < |l| && l[j] == x
    requires forall k :: i <= k < j ==> l[k] != x
    ensures UnregisterFrom(l, x, i) == UnregisterFrom(RemoveFirst(l, x), x, j + 1)
    decreases j - i
  {
    if i < j {
      UnregisterSkipsTo(l, x, i + 1, j);
    }
  }

  lemma {:induction false} WithoutKeepsUnique<T>(l: seq<T>, x: T)
    requires NoDuplicates(l)
    ensures NoDuplicates(Without(l, x))
  {
    if l != [] {
      WithoutKeepsUnique(l[1..], x);
      var r := Without(l, x);
      if l[0] != x {
        assert r == [l[0]] + Without(l[1..], x);
        assert l[0] !in l[1..];
        assert l[0] !in Without(l[1..], x);
      }
    }
  }

  /** The registrations an added reaction fires on message `m`: those with an equal emoji. */
  function FiredOnAdd<H>(l: seq<Registration<H>>, m: MessageId, emoji: string): (r: seq<H>)
    ensures forall k, h :: 0 <= k < |l| && l[k].0 == m && l[k].1.emoji == emoji && h in l[k].1.clicks ==> h in r
    ensures forall k, h :: 0 <= k < |l| && l[k].0 == m && l[k].1.emoji == emoji && h in l[k].1.toggles ==> h in r
    ensures forall h :: h in r ==> exists k :: 0 <= k < |l| && l[k].0 == m && l[k].1.emoji == emoji
                                     && (h in l[k].1.clicks || h in l[k].1.toggles)
  {
    if l == [] then []
    else
      var rest := FiredOnAdd(l[1..], m, emoji);
      if l[0].0 == m && l[0].1.emoji == emoji then l[0].1.clicks + l[0].1.toggles + rest else rest
  }

  /** The registrations an added reaction retires: every once-per-message one on message `m`. */
  function RetiredOnAdd<H>(l: seq<Registration<H>>, m: MessageId): (r: seq<Registration<H>>)
    ensures forall k :: 0 <= k < |r| ==> r[k] in l && r[k].0 == m && r[k].1.oncePerMessage
  {
    if l == [] then []
    else
      var rest := RetiredOnAdd(l[1..], m);
      if l[0].0 == m && l[0].1.oncePerMessage then [l[0]] + rest else rest
  }

  /** Exactly the once-per-message registrations on `m` are retired. */
  lemma {:induction false} RetiredOnAddMembers<H>(l: seq<Registration<H>>, m: MessageId, e: Registration<H>)
    requires e in l
    ensures e in RetiredOnAdd(l, m) <==> e.0 == m && e.1.oncePerMessage
  {
    if l[0] != e {
      RetiredOnAddMembers(l[1..], m, e);
    }
  }

  /** The handlers a removed reaction fires on message `m`. */
  function FiredOnRemove<H>(l: seq<Registration<H>>, m: MessageId, emoji: string): (r: seq<H>)
    ensures forall k, h :: 0 <= k < |l| && l[k].0 == m && l[k].1.emoji == emoji && h in l[k].1.unclicks ==> h in r
    ensures forall k, h :: 0 <= k < |l| && l[k].0 == m && l[k].1.emoji == emoji && h in l[k].1.toggles ==> h in r
    ensures forall h :: h in r ==> exists k :: 0 <= k < |l| && l[k].0 == m && l[k].1.emoji == emoji
                                     && (h in l[k].1.unclicks || h in l[k].1.toggles)
  {
    if l == [] then []
    else
      var rest := FiredOnRemove(l[1..], m, emoji);
      if l[0].0 == m && l[0].1.emoji == emoji then l[0].1.unclicks + l[0].1.toggles + rest else rest
  }

  /** Unregistering each of `xs` in turn. */
  function UnregisterEach<T(==)>(l: seq<T>, xs: seq<T>): seq<T>
    decreases |xs|
  {
    if xs == [] then l else UnregisterEach(UnregisterFrom(l, xs[0], 0), xs[1..])
  }

  /** The registrations that are not retired when a reaction is added on `m`. */
  function Surviving<H>(l: seq<Registration<H>>, m: MessageId): (r: seq<Registration<H>>)
    ensures forall k :: 0 <= k < |r| ==> r[k] in l && !(r[k].0 == m && r[k].1.oncePerMessage)
  {
    if l == [] then []
    else (if l[0].0 == m && l[0].1.oncePerMessage then [] else [l[0]]) + Surviving(l[1..], m)
  }

  /** The entries of `l` that are not among `xs`, in order. */
  function Exclude<T(==)>(l: seq<T>, xs: seq<T>): seq<T> {
    if l == [] then [] else (if l[0] in xs then [] else [l[0]]) + Exclude(l[1..], xs)
  }

  lemma {:induction false} ExcludeWithout<T>(l: seq<T>, x: T, xs: seq<T>)
    ensures Exclude(Without(l, x), xs) == Exclude(l, [x] + xs)
  {
    if l != [] {
      ExcludeWithout(l[1..], x, xs);
      var w := Without(l, x);
      if l[0] != x {
        assert w == [l[0]] + Without(l[1..], x);
        assert w[0] == l[0] && w[1..] == Without(l[1..], x);
        assert l[0] in [x] + xs <==> l[0] in xs;
      } else {
        assert w == Without(l[1..], x);
      }
    }
  }

  lemma {:induction false} ExcludeNothing<T>(l: seq<T>)
    ensures Exclude(l, []) == l
  {
    if l != [] {
      ExcludeNothing(l[1..]);
      assert [l[0]] + l[1..] == l;
    }
  }

  lemma {:induction false} UnregisterEachUnique<T>(l: seq<T>, xs: seq<T>)
    requires NoDuplicates(l)
    ensures UnregisterEach(l, xs) == Exclude(l, xs)
    decreases |xs|
  {
    if xs == [] {
      ExcludeNothing(l);
    } else {
      UnregisterUnique(l, xs[0]);
      WithoutKeepsUnique(l, xs[0]);
      UnregisterEachUnique(Without(l, xs[0]), xs[1..]);
      ExcludeWithout(l, xs[0], xs[1..]);
      assert [xs[0]] + xs[1..] == xs;
    }
  }

  lemma {:induction false} ExcludeRetired<H>(l: seq<Registration<H>>, m: MessageId, xs: seq<Registration<H>>)
    requires forall e :: e in l ==> (e in xs <==> e.0 == m && e.1.oncePerMessage)
    ensures Exclude(l, xs) == Surviving(l, m)
  {
    if l != [] {
      ExcludeRetired(l[1..], m, xs);
    }
  }

  /** With no duplicate registrations, an added reaction retires exactly the once-per-message
      registrations on its message, whatever their emoji, and keeps every other one in order. */
  lemma RetireOnAdd<H>(l: seq<Registration<H>>, m: MessageId)
    requires NoDuplicates(l)
    ensures UnregisterEach(l, RetiredOnAdd(l, m)) == Surviving(l, m)
    ensures forall k :: 0 <= k < |UnregisterEach(l, RetiredOnAdd(l, m))| ==>
      !(UnregisterEach(l, RetiredOnAdd(l, m))[k].0 == m && UnregisterEach(l, RetiredOnAdd(l, m))[k].1.oncePerMessage)
  {
    UnregisterEachUnique(l, RetiredOnAdd(l, m));
    forall e | e in l
      ensures e in RetiredOnAdd(l, m) <==> e.0 == m && e.1.oncePerMessage
    {
      RetiredOnAddMembers(l, m, e);
    }
    ExcludeRetired(l, m, RetiredOnAdd(l, m));
  }

  /** The retired registrations whose reaction Discord did remove, in order: `removed[k]` is its
      answer for `xs[k]`. Each removal runs in a task of its own, and one that raises leaves its
      registration listed. */
  function Confirmed<T>(xs: seq<T>, removed: seq<bool>): (r: seq<T>)
    requires |removed| == |xs|
    ensures forall e :: e in r ==> e in xs
    ensures (forall k :: 0 <= k < |xs| ==> removed[k]) ==> r == xs
    ensures (forall k :: 0 <= k < |xs| ==> !removed[k]) ==> r == []
  {
    if xs == [] then []
    else
      assert forall k :: 0 <= k < |xs| - 1 ==> removed[1..][k] == removed[k + 1];
      (if removed[0] then [xs[0]] else []) + Confirmed(xs[1..], removed[1..])
  }

  lemma {:induction false} ExcludeMembers<T>(l: seq<T>, xs: seq<T>, e: T)
    requires e in l
    ensures e in Exclude(l, xs) <==> e !in xs
  {
    assert Exclude(l, xs) == (if l[0] in xs then [] else [l[0]]) + Exclude(l[1..], xs);
    if e in l[1..] {
      ExcludeMembers(l[1..], xs, e);
    } else if e in xs {
      ExcludeOmits(l[1..], xs, e);
    }
  }

  lemma {:induction false} ExcludeOmits<T>(l: seq<T>, xs: seq<T>, e: T)
    requires e in xs
    ensures e !in Exclude(l, xs)
  {
    if l != [] {
      ExcludeOmits(l[1..], xs, e);
    }
  }

  /** With no duplicate registrations, after an added reaction a registration is still listed
      exactly when it was not retired or Discord did not remove its reaction. */
  lemma RetireOnAddConfirmed<H>(l: seq<Registration<H>>, m: MessageId, removed: seq<bool>, e: Registration<H>)
    requires NoDuplicates(l) && |removed| == |RetiredOnAdd(l, m)| && e in l
    ensures var kept := UnregisterEach(l, Confirmed(RetiredOnAdd(l, m), removed));
      e in kept <==> e !in Confirmed(RetiredOnAdd(l, m), removed)
    ensures e in Confirmed(RetiredOnAdd(l, m), removed) ==> e.0 == m && e.1.oncePerMessage
  {
    var c := Confirmed(RetiredOnAdd(l, m), removed);
    UnregisterEachUnique(l, c);
    ExcludeMembers(l, c, e);
    if e in c {
      assert e in RetiredOnAdd(l, m);
      RetiredOnAddMembers(l, m, e);
    }
  }

  /** A reaction registered last fires its click handlers, then its toggle handlers, after the
      ones registered before it. */
  lemma {:induction false} FiredOnAddAppend<H>(l: seq<Registration<H>>, m: MessageId, r: Reaction<H>)
    ensures FiredOnAdd(l + [(m, r)], m, r.emoji) == FiredOnAdd(l, m, r.emoji) + r.clicks + r.toggles
  {
    if l == [] {
      assert [(m, r)][1..] == [];
    } else {
      FiredOnAddAppend(l[1..], m, r);
      assert (l + [(m, r)])[1..] == l[1..] + [(m, r)];
    }
  }

  /** Registrations on other messages never fire. */
  lemma {:induction false} FiredOnAddOtherMessage<H>(l: seq<Registration<H>>, m: MessageId, emoji: string)
    requires forall k :: 0 <= k < |l| ==> l[k].0 != m
    ensures FiredOnAdd(l, m, emoji) == [] && FiredOnRemove(l, m, emoji) == []
  {
    if l != [] {
      FiredOnAddOtherMessage(l[1..], m, emoji);
    }
  }

  /** The process-wide list of registrations, with the event handlers that dispatch to them. */
  class Registry<H> {
    var entries: seq<Registration<H>>

    constructor ()
      ensures entries == []
    {
      entries := [];
    }

    /** `reaction.register_message(m)`: when the emoji could be added to the message (`added`),
        the pair is appended to the reaction's own list and to the registry; otherwise the
        exception propagates and nothing is recorded. */
    method RegisterMessage(r: Reaction<H>, m: MessageId, added: bool) returns (ok: bool)
      modifies this, r
      ensures ok == added
      ensures added ==> entries == old(entries) + [(m, r)] && r.registered == old(r.registered) + [m]
      ensures !added ==> entries == old(entries) && r.registered == old(r.registered)
    {
      if !added {
        return false;
      }
      r.registered := r.registered + [m];
      entries := entries + [(m, r)];
      return true;
    }

    /** `reaction.unregister_message(client, m)`: when Discord removed the bot's emoji from the
        message (`removed`), every listing of the pair is dropped; otherwise the exception
        propagates and every registration stays. */
    method UnregisterMessage(r: Reaction<H>, m: MessageId, removed: bool) returns (ok: bool)
      modifies this
      ensures ok == removed
      ensures removed ==> entries == UnregisterFrom(old(entries), (m, r), 0)
      ensures !removed ==> entries == old(entries)
    {
      if !removed {
        return false;
      }
      var x := (m, r);
      var i := 0;
      while i < |entries|
        invariant UnregisterFrom(entries, x, i) == UnregisterFrom(old(entries), x, 0)
        decreases |entries| - i
      {
        if entries[i] == x {
          entries := RemoveFirst(entries, x);
        }
        i := i + 1;
      }
      return true;
    }

    /** `on_reaction_add`: the handlers fired, in order, and the retired registrations removed;
        `removed[k]` is Discord's answer to the k-th retired registration's emoji removal. */
    method OnReactionAdd(m: MessageId, emoji: string, user: UserId, botUser: UserId, removed: seq<bool>)
      returns (fired: seq<H>)
      requires user != botUser ==> |removed| == |RetiredOnAdd(entries, m)|
      modifies this
      ensures user == botUser ==> fired == [] && entries == old(entries)
      ensures user != botUser ==> fired == FiredOnAdd(old(entries), m, emoji)
      ensures user != botUser ==>
        entries == UnregisterEach(old(entries), Confirmed(RetiredOnAdd(old(entries), m), removed))
    {
      if user == botUser {
        return [];
      }
      fired := [];
      var removeAfter := [];
      var i := |entries|;
      while i > 0
        invariant 0 <= i <= |entries|
        invariant fired == FiredOnAdd(entries[i..], m, emoji)
        invariant removeAfter == RetiredOnAdd(entries[i..], m)
      {
        i := i - 1;
        assert entries[i..][1..] == entries[i + 1..];
        var e := entries[i];
        if e.0 == m && e.1.emoji == emoji {
          fired := e.1.clicks + e.1.toggles + fired;
        }
        if e.0 == m && e.1.oncePerMessage {
          removeAfter := [e] + removeAfter;
        }
      }
      assert entries[0..] == entries;
      var j := 0;
      while j < |removeAfter|
        invariant 0 <= j <= |removeAfter|
        invariant UnregisterEach(entries, Confirmed(removeAfter[j..], removed[j..]))
                  == UnregisterEach(old(entries), Confirmed(removeAfter, removed))
      {
        assert removeAfter[j..][1..] == removeAfter[j + 1..];
        assert removed[j..][1..] == removed[j + 1..];
        var x := removeAfter[j];
        var rest := Confirmed(removeAfter[j + 1..], removed[j + 1..]);
        if removed[j] {
          assert Confirmed(removeAfter[j..], removed[j..]) == [x] + rest;
          assert ([x] + rest)[1..] == rest;
        } else {
          assert Confirmed(removeAfter[j..], removed[j..]) == [] + rest == rest;
        }
        var _ := UnregisterMessage(x.1, x.0, removed[j]);
        j := j + 1;
      }
      assert removeAfter[j..] == [] && removed[j..] == [];
    }

    /** `on_reaction_remove`: the handlers fired, in order; nothing is unregistered. */
    method OnReactionRemove(m: MessageId, emoji: string, user: UserId, botUser: UserId) returns (fired: seq<H>)
      ensures user == botUser ==> fired == []
      ensures user != botUser ==> fired == FiredOnRemove(entries, m, emoji)
    {
      if user == botUser {
        return [];
      }
      fired := [];
      var i := |entries|;
      while i > 0
        invariant 0 <= i <= |entries|
        invariant fired == FiredOnRemove(entries[i..], m, emoji)
      {
        i := i - 1;
        assert entries[i..][1..] == entries[i + 1..];
        var e := entries[i];
        if e.0 == m && e.1.emoji == emoji {
          fired := e.1.unclicks + e.1.toggles + fired;
        }
      }
      assert entries[0..] == entries;
    }
  }
}
