/*
 * ui/message_log.py: the game's message log, a deque of (text, colour key)
 * pairs with a maximum length, and the colour table of config.py that
 * get_color_rgb looks keys up in.
 */
module MessageLog {
  type Rgb = (int, int, int)
  type Message = (string, string)

  /** COLORS of config.py:204-256. */
  const COLORS: map<string, Rgb> := map[
    "black" := (0, 0, 0), "white" := (255, 255, 255), "gray" := (128, 128, 128),
    "dark_gray" := (64, 64, 64), "darker_gray" := (32, 32, 32),
    "player" := (255, 255, 255),
    "wall" := (130, 110, 90), "wall_dark" := (50, 50, 60), "floor" := (50, 50, 50),
    "floor_dark" := (25, 25, 30), "door" := (139, 69, 19), "door_open" := (101, 67, 33),
    "stairs" := (255, 215, 0),
    "goblin" := (0, 200, 0), "orc" := (0, 128, 0), "troll" := (0, 100, 0), "dragon" := (255, 0, 0),
    "snake" := (0, 255, 0), "zombie" := (100, 150, 100), "rat" := (139, 90, 43), "bat" := (100, 100, 100),
    "skeleton" := (200, 200, 200), "wraith" := (150, 0, 200), "ancient_dragon" := (255, 50, 50),
    "potion" := (0, 255, 255), "scroll" := (255, 255, 0), "weapon" := (192, 192, 192),
    "armor" := (139, 69, 19), "gold" := (255, 215, 0), "amulet" := (255, 0, 255), "ring" := (255, 165, 0),
    "hp_bar" := (200, 0, 0), "hp_bar_bg" := (50, 0, 0), "xp_bar" := (0, 200, 0), "xp_bar_bg" := (0, 50, 0),
    "message" := (200, 200, 200), "message_important" := (255, 255, 0),
    "message_damage" := (255, 100, 100), "message_heal" := (100, 255, 100), "message_death" := (255, 0, 0)
  ]

  /** MESSAGE_LOG_MAX_MESSAGES of config.py, the constructor's default capacity. */
  const MAX_MESSAGES: nat := 100

  /** The colour add and add_multiple use when none is given. */
  const DEFAULT_COLOR := "message"

  /** How many messages get_recent returns when no count is given. */
  const DEFAULT_RECENT_COUNT := 5

  function Min(a: int, b: int): int
  {
    if a < b then a else b
  }

  /** What a deque with maxlen n holds after its contents were s: the last n entries. */
  function Bounded<T>(s: seq<T>, n: nat): (r: seq<T>)
    ensures |r| == Min(|s|, n)
    ensures r == s[|s| - |r|..]
  {
    if |s| > n then s[|s| - n..] else s
  }

  /** Python's list(s)[-count:]: the last count entries, all of them for 0, all but the first -count for negative count. */
  function Recent<T>(s: seq<T>, count: int): (r: seq<T>)
    ensures |r| <= |s| && r == s[|s| - |r|..]
    ensures count > 0 ==> |r| == Min(count, |s|)
    ensures count == 0 ==> r == s
    ensures count < 0 ==> |r| == |s| - Min(-count, |s|)
  {
    if count > 0 then s[|s| - Min(count, |s|)..]
    else if count == 0 then s
    else s[Min(-count, |s|)..]
  }

  /** The pairs add_multiple appends: every text with the same colour. */
  function Tagged(texts: seq<string>, color: string): (r: seq<Message>)
    ensures |r| == |texts|
    ensures forall i | 0 <= i < |r| :: r[i] == (texts[i], color)
  {
    if texts == [] then [] else [(texts[0], color)] + Tagged(texts[1..], color)
  }

  class MessageLog {
    var messages: seq<Message>
    const maxMessages: nat

    predicate Valid()
      reads this
    {
      |messages| <= maxMessages
    }

    /** An empty log keeping at most maxMessages entries. */
    constructor (maxMessages: nat)
      ensures Valid() && messages == [] && this.maxMessages == maxMessages
    {
      messages := [];
      this.maxMessages := maxMessages;
    }

    /** add: appends (text, color); a full log drops its oldest entry. */
    method Add(text: string, color: string)
      requires Valid()
      modifies this`messages
      ensures Valid()
      ensures messages == Bounded(old(messages) + [(text, color)], maxMessages)
    {
      var s := messages + [(text, color)];
      if |s| > maxMessages {
        s := s[|s| - maxMessages..];
      }
      messages := s;
    }

    /** add_multiple: one add per text, in order, all with the same colour. */
    method AddMultiple(texts: seq<string>, color: string)
      requires Valid()
      modifies this`messages
      ensures Valid()
      ensures messages == Bounded(old(messages) + Tagged(texts, color), maxMessages)
    {
      var i := 0;
      while i < |texts|
        invariant 0 <= i <= |texts|
        invariant Valid()
        invariant messages == Bounded(old(messages) + Tagged(texts[..i], color), maxMessages)
      {
        ghost var before := old(messages) + Tagged(texts[..i], color);
        Add(texts[i], color);
        BoundedAppend(before, [(texts[i], color)], maxMessages);
        TaggedSnoc(texts, i, color);
        assert before + [(texts[i], color)] == old(messages) + Tagged(texts[..i + 1], color);
        i := i + 1;
      }
      assert texts[..|texts|] == texts;
    }

    /** get_recent: the last `count` messages with Python's negative-slice rules. */
    function GetRecent(count: int): (r: seq<Message>)
      reads this
      ensures r == Recent(messages, count)
      ensures |r| <= |messages|
    {
      Recent(messages, count)
    }

    /** clear: the log is empty; its maximum length is kept. */
    method Clear()
      modifies this`messages
      ensures messages == [] && Valid()
    {
      messages := [];
    }

    /** get_color_rgb: the colour of a known key, the "message" colour otherwise. */
    function GetColorRgb(key: string): (rgb: Rgb)
      ensures key in COLORS ==> rgb == COLORS[key]
      ensures key !in COLORS ==> rgb == (200, 200, 200)
    {
      if key in COLORS then COLORS[key] else COLORS["message"]
    }
  }

  lemma TaggedSnoc(texts: seq<string>, i: nat, color: string)
    requires i < |texts|
    ensures Tagged(texts[..i + 1], color) == Tagged(texts[..i], color) + [(texts[i], color)]
  {
  }

  /** Trimming to n and then appending and trimming again is the same as one trim at the end. */
  lemma BoundedAppend<T>(s: seq<T>, t: seq<T>, n: nat)
    ensures Bounded(Bounded(s, n) + t, n) == Bounded(s + t, n)
  {
    var b := Bounded(s, n);
    var lhs := Bounded(b + t, n);
    var rhs := Bounded(s + t, n);
    assert |lhs| == |rhs|;
    forall k | 0 <= k < |lhs|
      ensures lhs[k] == rhs[k]
    {
      var j := |b + t| - |lhs| + k;
      if j < |b| {
        assert lhs[k] == b[j] == s[|s| - |b| + j];
      } else {
        assert lhs[k] == t[j - |b|];
      }
    }
  }

  /**
   * As long as at most maxMessages are asked for, get_recent after adds
   * returns what it would return had nothing ever been dropped.
   */
  lemma RecentIgnoresBound<T>(s: seq<T>, n: nat, count: int)
    requires 0 < count <= n
    ensures Recent(Bounded(s, n), count) == Recent(s, count)
  {
  }

  /** With room for at least one message, the newest one added is the last of get_recent(1). */
  lemma NewestIsRecent(s: seq<Message>, n: nat, m: Message)
    requires n >= 1
    ensures Recent(Bounded(s + [m], n), 1) == [m]
  {
    RecentIgnoresBound(s + [m], n, 1);
  }
}
