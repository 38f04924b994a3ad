/** The Redis keys of a conversation: when two scopes, or two kinds of state, share one. */
module ScopeKeys {
  import opened Messages

  const SEPARATOR := '\U{1F}'
  const KEY_PREFIX := "piki:v1:conversation:"

  datatype Kind = ConversationLock | ActivePick | PendingAction

  function ChannelName(channel: Channel): string {
    match channel
    case WhatsApp => "whatsapp"
    case Web => "web"
  }

  /** What is hashed. */
  function Identity(s: Scope): string {
    ChannelName(s.channel) + [SEPARATOR] + (s.account + [SEPARATOR] + s.conversation)
  }

  function Suffix(kind: Kind): string {
    match kind
    case ConversationLock => ":lock"
    case ActivePick => ":active-pick"
    case PendingAction => ":pending-action"
  }

  /** `key_for`, for any digest. */
  function KeyFor(digest: string -> string, s: Scope, kind: Kind): string {
    KEY_PREFIX + digest(Identity(s)) + Suffix(kind)
  }

  ghost predicate Injective(digest: string -> string) {
    forall x, y :: digest(x) == digest(y) ==> x == y
  }

  /** Accounts that can be told from what follows them. */
  predicate PlainAccount(s: Scope) {
    SEPARATOR !in s.account
  }

  lemma CollisionIsPrefix(x: string, c: string, y: string, d: string)
    requires x + [SEPARATOR] + c == y + [SEPARATOR] + d && |x| < |y|
    ensures x + [SEPARATOR] <= y
  {
    var s := x + [SEPARATOR] + c;
    assert x == s[..|x|] && s[|x|] == SEPARATOR && y == s[..|y|];
    assert y[..|x| + 1] == s[..|x| + 1] == x + [SEPARATOR];
  }

  lemma SeparatorInside(x: string, c: string, y: string, d: string)
    requires x + [SEPARATOR] + c == y + [SEPARATOR] + d && |x| < |y|
    ensures SEPARATOR in y
  {
    CollisionIsPrefix(x, c, y, d);
    assert y[|x|] == SEPARATOR;
  }

  lemma SameLengthSplits(a: string, x: string, b: string, y: string)
    requires |a| == |b| && a + [SEPARATOR] + x == b + [SEPARATOR] + y
    ensures a == b && x == y
  {
    var s, t := a + [SEPARATOR] + x, b + [SEPARATOR] + y;
    assert a == s[..|a|] && b == t[..|a|];
    assert x == s[|a| + 1..] && y == t[|a| + 1..];
  }

  lemma SplitsAtFirst(a: string, x: string, b: string, y: string)
    requires SEPARATOR !in a && SEPARATOR !in b && a + [SEPARATOR] + x == b + [SEPARATOR] + y
    ensures a == b && x == y
  {
    if |a| < |b| {
      SeparatorInside(a, x, b, y);
    } else if |b| < |a| {
      SeparatorInside(b, y, a, x);
    } else {
      SameLengthSplits(a, x, b, y);
    }
  }

  /** Equal identities mean equal channels, and equal rests. */
  lemma IdentityParts(a: Scope, b: Scope)
    ensures Identity(a) == Identity(b) <==>
              && a.channel == b.channel
              && a.account + [SEPARATOR] + a.conversation == b.account + [SEPARATOR] + b.conversation
  {
    assert SEPARATOR !in ChannelName(a.channel) && SEPARATOR !in ChannelName(b.channel);
    if Identity(a) == Identity(b) {
      SplitsAtFirst(ChannelName(a.channel), a.account + [SEPARATOR] + a.conversation,
                    ChannelName(b.channel), b.account + [SEPARATOR] + b.conversation);
      assert |"whatsapp"| != |"web"|;
    }
  }

  /** Without the separator in the accounts, the identity determines the scope. */
  lemma IdentityIsInjective(a: Scope, b: Scope)
    requires PlainAccount(a) && PlainAccount(b) && Identity(a) == Identity(b)
    ensures a == b
  {
    IdentityParts(a, b);
    SplitsAtFirst(a.account, a.conversation, b.account, b.conversation);
  }

  lemma CollidingConversation(channel: Channel, x: string, y: string)
    requires x + [SEPARATOR] <= y
    ensures exists c, d :: Identity(Scope(channel, x, c)) == Identity(Scope(channel, y, d))
  {
    var c, d := y[|x| + 1..] + [SEPARATOR] + "a", "a";
    assert x + [SEPARATOR] + c == y + [SEPARATOR] + d by {
      assert y == x + [SEPARATOR] + y[|x| + 1..];
    }
    IdentityParts(Scope(channel, x, c), Scope(channel, y, d));
    assert Identity(Scope(channel, x, c)) == Identity(Scope(channel, y, d));
  }

  /**
   Two accounts of a channel have conversations with one identity exactly when one continues the other after the
   separator.
   */
  lemma AccountsCollide(channel: Channel, x: string, y: string)
    requires x != y
    ensures (exists c, d :: Identity(Scope(channel, x, c)) == Identity(Scope(channel, y, d)))
       <==> x + [SEPARATOR] <= y || y + [SEPARATOR] <= x
  {
    if c, d :| Identity(Scope(channel, x, c)) == Identity(Scope(channel, y, d)) {
      IdentityParts(Scope(channel, x, c), Scope(channel, y, d));
      if |x| < |y| {
        CollisionIsPrefix(x, c, y, d);
      } else if |y| < |x| {
        CollisionIsPrefix(y, d, x, c);
      } else {
        SameLengthSplits(x, c, y, d);
      }
    }
    if x + [SEPARATOR] <= y {
      CollidingConversation(channel, x, y);
    }
    if y + [SEPARATOR] <= x {
      CollidingConversation(channel, y, x);
      var d, c :| Identity(Scope(channel, y, d)) == Identity(Scope(channel, x, c));
      assert Identity(Scope(channel, x, c)) == Identity(Scope(channel, y, d));
    }
  }

  /** Keys of different kinds differ, and keys of one kind are as distinct as the digests. */
  lemma KeysApart(digest: string -> string, a: Scope, k: Kind, b: Scope, l: Kind)
    ensures KeyFor(digest, a, k) == KeyFor(digest, b, l) <==> k == l && digest(Identity(a)) == digest(Identity(b))
  {
    var x, y := KeyFor(digest, a, k), KeyFor(digest, b, l);
    if x == y {
      FourthFromTheEnd(digest, a, k);
      FourthFromTheEnd(digest, b, l);
      var n, m := |KEY_PREFIX|, |x| - |Suffix(k)|;
      assert x[n..m] == digest(Identity(a)) && y[n..m] == digest(Identity(b));
    }
  }

  lemma FourthFromTheEnd(digest: string -> string, s: Scope, kind: Kind)
    ensures var key := KeyFor(digest, s, kind);
            |key| >= 4 && key[|key| - 4] ==
              match kind case ConversationLock => 'l' case ActivePick => 'p' case PendingAction => 't'
  {
    var key, suffix := KeyFor(digest, s, kind), Suffix(kind);
    assert key[|key| - |suffix|..] == suffix;
    assert key[|key| - 4] == suffix[|suffix| - 4];
  }

  /** With an injective digest and plain accounts, a key belongs to one scope and one kind. */
  lemma KeysAreOwn(digest: string -> string, a: Scope, k: Kind, b: Scope, l: Kind)
    requires Injective(digest) && PlainAccount(a) && PlainAccount(b) && KeyFor(digest, a, k) == KeyFor(digest, b, l)
    ensures a == b && k == l
  {
    KeysApart(digest, a, k, b, l);
    IdentityIsInjective(a, b);
  }
}
