// The keyboard and pointer state of src/scripts/util/input.ts. Key events are
// de-duplicated through an event buffer holding the last accepted event type
// per code; the codes of the game's key set that are held down are kept in a
// list without duplicates. The browser event objects become parameters.

module Inputs {
  import opened Vectors

  datatype EventType = KeyDown | KeyUp

  /** What onKey reads from a keyboard event: its type, its physical code and its key. */
  datatype KeyEvent = KeyEvent(eventType: EventType, code: string, key: string)

  /** An entry of the event buffer: the last accepted event type for a code. */
  datatype BufferedEvent = BufferedEvent(eventType: EventType, code: string)

  /** The keys that exist on both sides of the keyboard. */
  predicate IsSidedKey(key: string)
  {
    key == "Shift" || key == "Control" || key == "Alt"
  }

  /** The code onKey files an event under: the key for Shift, Control and Alt, the code otherwise. */
  function NormalizedCode(e: KeyEvent): string
  {
    if IsSidedKey(e.key) then e.key else e.code
  }

  /** Left and right Shift (Control, Alt) are filed under the same code; other keys keep their own code. */
  lemma NormalizedCodeJoinsSides(e1: KeyEvent, e2: KeyEvent)
    ensures IsSidedKey(e1.key) && e1.key == e2.key ==> NormalizedCode(e1) == NormalizedCode(e2)
    ensures !IsSidedKey(e1.key) ==> NormalizedCode(e1) == e1.code
  {
  }

  /** Array.prototype.indexOf: the first position of x in s, or -1 when x does not occur. */
  function IndexOf<T(==)>(s: seq<T>, x: T): (i: int)
    ensures -1 <= i < |s|
    ensures i == -1 <==> x !in s
    ensures 0 <= i ==> s[i] == x && forall j :: 0 <= j < i ==> s[j] != x
  {
    if |s| == 0 then -1
    else if s[0] == x then 0
    else
      var k := IndexOf(s[1..], x);
      if k == -1 then -1 else k + 1
  }

  /** Array.prototype.splice(i, 1) on a sequence. */
  function RemoveAt<T>(s: seq<T>, i: nat): seq<T>
    requires i < |s|
  {
    s[..i] + s[i + 1..]
  }

  /** A sequence without repeated elements. */
  predicate Distinct<T(==)>(s: seq<T>)
  {
    forall i, j :: 0 <= i < j < |s| ==> s[i] != s[j]
  }

  /** The codes of the buffered events, in order. */
  function Codes(buffer: seq<BufferedEvent>): (cs: seq<string>)
    ensures |cs| == |buffer| && forall i :: 0 <= i < |buffer| ==> cs[i] == buffer[i].code
  {
    seq(|buffer|, i requires 0 <= i < |buffer| => buffer[i].code)
  }

  /** Whether onKey goes past the buffer check: no buffered event of this code has this type. */
  function Accepted(buffer: seq<BufferedEvent>, t: EventType, code: string): bool
  {
    var i := IndexOf(Codes(buffer), code);
    i == -1 || buffer[i].eventType != t
  }

  /** The event buffer after onKey: the entry for code takes type t, or a new entry is appended. */
  function BufferAfter(buffer: seq<BufferedEvent>, t: EventType, code: string): seq<BufferedEvent>
  {
    var i := IndexOf(Codes(buffer), code);
    if i == -1 then buffer + [BufferedEvent(t, code)]
    else buffer[i := BufferedEvent(t, code)]
  }

  /** The held keys after an accepted event: a key up removes the code, a key down appends it once. */
  function PressedAfter(pressed: seq<string>, consumed: set<string>, t: EventType, code: string): seq<string>
  {
    var i := IndexOf(pressed, code);
    if code !in consumed then pressed
    else if t == KeyUp then (if i != -1 then RemoveAt(pressed, i) else pressed)
    else if i == -1 then pressed + [code]
    else pressed
  }

  /** An event of the type already buffered for its code is not accepted, and leaves the buffer as it was. */
  lemma RepeatedEventIgnored(buffer: seq<BufferedEvent>, t: EventType, code: string)
    requires !Accepted(buffer, t, code)
    ensures BufferAfter(buffer, t, code) == buffer
  {
    var i := IndexOf(Codes(buffer), code);
    assert buffer[i] == BufferedEvent(t, code);
  }

  /**
   * The buffer keeps one entry per code; afterwards the entry for code holds
   * the new type and every other entry is untouched.
   */
  lemma BufferAfterOneEntryPerCode(buffer: seq<BufferedEvent>, t: EventType, code: string)
    requires Distinct(Codes(buffer))
    ensures var b := BufferAfter(buffer, t, code);
      && Distinct(Codes(b))
      && IndexOf(Codes(b), code) != -1 && b[IndexOf(Codes(b), code)].eventType == t
      && forall j :: 0 <= j < |buffer| && buffer[j].code != code ==> b[j] == buffer[j]
  {
    var b := BufferAfter(buffer, t, code);
    var i := IndexOf(Codes(buffer), code);
    assert Codes(b)[|b| - 1] == code || Codes(b)[i] == code;
  }

  /** Removing one occurrence from a distinct sequence removes the element and keeps all others. */
  lemma RemoveAtDistinct<T>(s: seq<T>, i: nat)
    requires i < |s| && Distinct(s)
    ensures Distinct(RemoveAt(s, i))
    ensures s[i] !in RemoveAt(s, i)
    ensures forall x :: x != s[i] ==> (x in RemoveAt(s, i) <==> x in s)
  {
    var r := RemoveAt(s, i);
    forall a, b | 0 <= a < b < |r|
      ensures r[a] != r[b]
    {
      var a', b' := if a < i then a else a + 1, if b < i then b else b + 1;
      assert r[a] == s[a'] && r[b] == s[b'];
    }
    forall x | x != s[i]
      ensures x in r <==> x in s
    {
      if x in s {
        var k :| 0 <= k < |s| && s[k] == x;
        assert k != i;
        assert r[if k < i then k else k - 1] == x;
      }
    }
    forall k | 0 <= k < |r|
      ensures r[k] != s[i]
    {
      assert r[k] == s[if k < i then k else k + 1];
    }
  }

  /**
   * The held keys stay distinct and within the key set. A code outside the key
   * set changes nothing; after a key up the code is no longer held, after a
   * key down it is; every other key is held exactly when it was before.
   */
  lemma PressedAfterProperties(pressed: seq<string>, consumed: set<string>, t: EventType, code: string)
    requires Distinct(pressed) && forall k :: k in pressed ==> k in consumed
    ensures var p := PressedAfter(pressed, consumed, t, code);
      && Distinct(p)
      && (forall k :: k in p ==> k in consumed)
      && (code !in consumed ==> p == pressed)
      && (code in consumed && t == KeyUp ==> code !in p)
      && (code in consumed && t == KeyDown ==> code in p)
      && (forall k :: k != code ==> (k in p <==> k in pressed))
  {
    var i := IndexOf(pressed, code);
    if code in consumed && t == KeyUp && i != -1 {
      RemoveAtDistinct(pressed, i);
    }
  }

  class Input {
    /** Object.values(Keys): the codes the game reacts to. */
    const consumedKeyCodes: set<string>
    var pressedKeys: seq<string>
    var eventBuffer: seq<BufferedEvent>
    var mouse: Vec
    var mouseAxis: Vec

    /** One buffer entry per code; held keys distinct and within the key set. */
    predicate Valid()
      reads this
    {
      && Distinct(Codes(eventBuffer))
      && Distinct(pressedKeys)
      && forall k :: k in pressedKeys ==> k in consumedKeyCodes
    }

    /** The static initial state: nothing held, nothing buffered, pointer and axis at zero. */
    constructor (keys: set<string>)
      ensures consumedKeyCodes == keys && pressedKeys == [] && eventBuffer == []
      ensures mouse == Vec.Zero() && mouseAxis == Vec.Zero()
      ensures Valid()
    {
      consumedKeyCodes := keys;
      pressedKeys := [];
      eventBuffer := [];
      mouse := Vec.Zero();
      mouseAxis := Vec.Zero();
    }

    /**
     * Input.onKey: an event of the type already buffered for its code is
     * dropped; otherwise the buffer records it and, for a code of the key
     * set, a key up releases the key and a key down holds it once.
     */
    method OnKey(e: KeyEvent)
      requires Valid()
      modifies this
      ensures Valid()
      ensures var code := NormalizedCode(e);
        && eventBuffer == BufferAfter(old(eventBuffer), e.eventType, code)
        && pressedKeys == (if Accepted(old(eventBuffer), e.eventType, code)
                           then PressedAfter(old(pressedKeys), consumedKeyCodes, e.eventType, code)
                           else old(pressedKeys))
      ensures mouse == old(mouse) && mouseAxis == old(mouseAxis)
    {
      var code := e.code;
      if IsSidedKey(e.key) {
        code := e.key;
      }
      BufferAfterOneEntryPerCode(eventBuffer, e.eventType, code);
      PressedAfterProperties(pressedKeys, consumedKeyCodes, e.eventType, code);
      var cached := IndexOf(Codes(eventBuffer), code);
      if cached != -1 {
        if eventBuffer[cached].eventType == e.eventType {
          return;
        } else {
          eventBuffer := eventBuffer[cached := BufferedEvent(e.eventType, code)];
        }
      } else {
        eventBuffer := eventBuffer + [BufferedEvent(e.eventType, code)];
      }
      if code !in consumedKeyCodes {
        return;
      }
      var pressedKeysIndex := IndexOf(pressedKeys, code);
      if e.eventType == KeyUp {
        if pressedKeysIndex != -1 {
          pressedKeys := RemoveAt(pressedKeys, pressedKeysIndex);
        }
      } else if pressedKeysIndex == -1 {
        pressedKeys := pressedKeys + [code];
      }
    }

    /** Input.isKeyDown: the key is among the held keys. */
    function IsKeyDown(key: string): (r: bool)
      reads this
      ensures r <==> key in pressedKeys
    {
      IndexOf(pressedKeys, key) != -1
    }

    /** Input.isAnyKeyDown: some key is held. */
    function IsAnyKeyDown(): (r: bool)
      reads this
      ensures r <==> pressedKeys != []
    {
      |pressedKeys| > 0
    }

    /** Input.resetKey: release one key, leaving the other keys and the buffer alone. */
    method ResetKey(key: string)
      requires Valid()
      modifies this
      ensures Valid()
      ensures key !in pressedKeys
      ensures forall k :: k != key ==> (k in pressedKeys <==> k in old(pressedKeys))
      ensures eventBuffer == old(eventBuffer) && mouse == old(mouse) && mouseAxis == old(mouseAxis)
    {
      var index := IndexOf(pressedKeys, key);
      if index != -1 {
        RemoveAtDistinct(pressedKeys, index);
        pressedKeys := RemoveAt(pressedKeys, index);
      }
    }

    /** Input.resetAllKeys: release every key, leaving the buffer alone. */
    method ResetAllKeys()
      requires Valid()
      modifies this
      ensures Valid() && pressedKeys == [] && !IsAnyKeyDown()
      ensures eventBuffer == old(eventBuffer) && mouse == old(mouse) && mouseAxis == old(mouseAxis)
    {
      pressedKeys := [];
    }

    /**
     * Input.onMouseMove: the axis becomes the step from the previous pointer
     * position, so the previous position plus the axis is the new position.
     */
    method OnMouseMove(clientX: real, clientY: real)
      modifies this
      ensures mouse == Vec(clientX, clientY)
      ensures mouseAxis == Vec.Subtract(mouse, old(mouse))
      ensures Vec.Add(old(mouse), mouseAxis) == mouse
      ensures pressedKeys == old(pressedKeys) && eventBuffer == old(eventBuffer)
    {
      var position := Vec(clientX, clientY);
      var difference := Vec.Subtract(position, mouse);
      mouseAxis := difference;
      mouse := position;
    }

    /** Input.resetAxis */
    method ResetAxis()
      modifies this
      ensures mouseAxis == Vec.Zero()
      ensures mouse == old(mouse) && pressedKeys == old(pressedKeys) && eventBuffer == old(eventBuffer)
    {
      mouseAxis := Vec.Zero();
    }
  }

  /** Handling the same event twice is handling it once. */
  lemma OnKeyIdempotent(buffer: seq<BufferedEvent>, t: EventType, code: string)
    requires Distinct(Codes(buffer))
    ensures var b := BufferAfter(buffer, t, code);
      && !Accepted(b, t, code)
      && BufferAfter(b, t, code) == b
  {
    BufferAfterOneEntryPerCode(buffer, t, code);
    var b := BufferAfter(buffer, t, code);
    RepeatedEventIgnored(b, t, code);
  }
}
