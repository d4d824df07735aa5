/**
 * The CRT overlay: a scanline effect that a button switches on and off, and
 * a hidden key sequence that starts a mock self-destruct countdown ending in
 * a joke.
 */
module CrtOverlay {

  /** The secret key sequence, as `KeyboardEvent.key` values. */
  const KonamiCode: seq<string> := ["ArrowUp", "ArrowUp", "ArrowLeft", "ArrowDown", "ArrowRight"]

  /** The countdown's starting value, in seconds. */
  const CountdownStart: int := 5

  /** `toLowerCase` on one character, for the ASCII letters. */
  function LowerChar(c: char): (l: char)
    ensures !('A' <= l <= 'Z')
    ensures 'a' <= l <= 'z' <==> 'a' <= c <= 'z' || 'A' <= c <= 'Z'
  {
    if 'A' <= c <= 'Z' then (c as int - 'A' as int + 'a' as int) as char else c
  }

  /** `key.toLowerCase()`, for the ASCII letters. */
  function ToLower(s: string): (r: string)
    ensures |r| == |s|
  {
    seq(|s|, i requires 0 <= i < |s| => LowerChar(s[i]))
  }

  /** The matcher's test: the key equals the expected one, as typed or lower-cased. */
  predicate KeyMatches(key: string, expected: string)
  {
    key == expected || ToLower(key) == expected
  }

  /**
   * Every key of the sequence starts with a capital, which a lower-cased key
   * never does, so the lower-case alternative of the test never decides:
   * a key matches exactly when it is the expected one.
   */
  lemma MatchesOnlyExactly(key: string, index: nat)
    requires index < |KonamiCode|
    ensures KeyMatches(key, KonamiCode[index]) <==> key == KonamiCode[index]
  {
    var expected := KonamiCode[index];
    assert expected[0] == 'A';
    if |key| > 0 {
      assert ToLower(key)[0] == LowerChar(key[0]);
    }
  }

  /** What one key press does to the matcher. */
  datatype KeyOutcome = KeyOutcome(nextIndex: nat, triggered: bool)

  /**
   * `handleKeyDown` for the matcher at position `index`: a matching key
   * moves to the next position, or, completing the sequence, triggers and
   * starts over; any other key starts over, even when it is the sequence's
   * first key.
   */
  function Advance(index: nat, key: string): (o: KeyOutcome)
    requires index < |KonamiCode|
    ensures o.nextIndex < |KonamiCode|
    ensures key == KonamiCode[index] && index + 1 < |KonamiCode| ==> o == KeyOutcome(index + 1, false)
    ensures key == KonamiCode[index] && index + 1 == |KonamiCode| ==> o == KeyOutcome(0, true)
    ensures key != KonamiCode[index] ==> o == KeyOutcome(0, false)
  {
    MatchesOnlyExactly(key, index);
    if KeyMatches(key, KonamiCode[index]) then
      var next := index + 1;
      if next == |KonamiCode| then KeyOutcome(0, true) else KeyOutcome(next, false)
    else KeyOutcome(0, false)
  }

  /**
   * A run of key presses from matcher position `index`: where the matcher
   * ends up and whether some press completed the sequence.
   */
  function Feed(index: nat, keys: seq<string>): (o: KeyOutcome)
    requires index < |KonamiCode|
    ensures o.nextIndex < |KonamiCode|
  {
    if |keys| == 0 then KeyOutcome(index, false)
    else
      var before := Feed(index, keys[..|keys| - 1]);
      var last := Advance(before.nextIndex, keys[|keys| - 1]);
      KeyOutcome(last.nextIndex, before.triggered || last.triggered)
  }

  /** Typing the sequence from the start always triggers, and the matcher starts over. */
  lemma KonamiTriggers()
    ensures Feed(0, KonamiCode) == KeyOutcome(0, true)
  {
    var k := KonamiCode;
    assert k[..0] == [];
    assert Feed(0, k[..1]) == KeyOutcome(1, false) by { assert k[..1][..0] == k[..0]; }
    assert Feed(0, k[..2]) == KeyOutcome(2, false) by { assert k[..2][..1] == k[..1]; }
    assert Feed(0, k[..3]) == KeyOutcome(3, false) by { assert k[..3][..2] == k[..2]; }
    assert Feed(0, k[..4]) == KeyOutcome(4, false) by { assert k[..4][..3] == k[..3]; }
    assert k[..5] == k;
  }

  /**
   * A mismatch starts over at position 0 rather than at the longest match
   * so far: an extra Up in the middle loses the whole prefix.
   */
  lemma ExtraUpDoesNotTrigger()
    ensures !Feed(0, ["ArrowUp", "ArrowUp", "ArrowUp", "ArrowUp", "ArrowLeft", "ArrowDown", "ArrowRight"]).triggered
  {
    var k := ["ArrowUp", "ArrowUp", "ArrowUp", "ArrowUp", "ArrowLeft", "ArrowDown", "ArrowRight"];
    assert k[..0] == [];
    assert Feed(0, k[..1]) == KeyOutcome(1, false) by { assert k[..1][..0] == k[..0]; }
    assert Feed(0, k[..2]) == KeyOutcome(2, false) by { assert k[..2][..1] == k[..1]; }
    assert Feed(0, k[..3]) == KeyOutcome(0, false) by { assert k[..3][..2] == k[..2]; }
    assert Feed(0, k[..4]) == KeyOutcome(1, false) by { assert k[..4][..3] == k[..3]; }
    assert Feed(0, k[..5]) == KeyOutcome(0, false) by { assert k[..5][..4] == k[..4]; }
    assert Feed(0, k[..6]) == KeyOutcome(0, false) by { assert k[..6][..5] == k[..5]; }
    assert Feed(0, k[..7]) == KeyOutcome(0, false) by { assert k[..7][..6] == k[..6]; }
    assert k[..7] == k;
  }

  /** The overlay's state. */
  class Overlay {
    var crtEnabled: bool
    var konamiIndex: nat
    var selfDestruct: bool
    var countdown: int
    var showJoke: bool

    /**
     * The states the overlay can reach: the matcher is inside the sequence,
     * the countdown between 0 and 5, untouched while no self-destruct runs,
     * and the joke shows only once the countdown has reached 0.
     */
    predicate Valid()
      reads this
    {
      konamiIndex < |KonamiCode|
      && 0 <= countdown <= CountdownStart
      && (!selfDestruct ==> countdown == CountdownStart && !showJoke)
      && (showJoke ==> selfDestruct && countdown == 0)
    }

    /** The initial state: CRT on, matcher at the start, no self-destruct. */
    constructor()
      ensures Valid()
      ensures crtEnabled && konamiIndex == 0 && !selfDestruct && countdown == CountdownStart && !showJoke
    {
      crtEnabled := true;
      konamiIndex := 0;
      selfDestruct := false;
      countdown := CountdownStart;
      showJoke := false;
    }

    /** A key press: the matcher advances as `Advance` says; completing the sequence starts the self-destruct. */
    method HandleKeyDown(key: string)
      requires Valid()
      modifies this
      ensures Valid()
      ensures konamiIndex == Advance(old(konamiIndex), key).nextIndex
      ensures selfDestruct == (old(selfDestruct) || Advance(old(konamiIndex), key).triggered)
      ensures crtEnabled == old(crtEnabled) && countdown == old(countdown) && showJoke == old(showJoke)
    {
      var expectedKey := KonamiCode[konamiIndex];
      if key == expectedKey || ToLower(key) == expectedKey {
        var nextIndex := konamiIndex + 1;
        if nextIndex == |KonamiCode| {
          selfDestruct := true;
          konamiIndex := 0;
        } else {
          konamiIndex := nextIndex;
        }
      } else {
        konamiIndex := 0;
      }
    }

    /**
     * The one-second timer of a running countdown fires: the countdown drops
     * by one, and on reaching 0 the joke shows. The timer only runs during a
     * countdown, so at any other time nothing changes.
     */
    method Tick()
      requires Valid()
      modifies this
      ensures Valid()
      ensures old(selfDestruct) && old(countdown) > 0 ==>
                countdown == old(countdown) - 1 && showJoke == (countdown == 0)
      ensures !(old(selfDestruct) && old(countdown) > 0) ==> countdown == old(countdown) && showJoke == old(showJoke)
      ensures crtEnabled == old(crtEnabled) && konamiIndex == old(konamiIndex) && selfDestruct == old(selfDestruct)
    {
      if selfDestruct && countdown > 0 {
        countdown := countdown - 1;
        if countdown == 0 {
          showJoke := true;
        }
      }
    }

    /**
     * The three-second timer started when the joke shows fires: everything
     * resets for the next self-destruct. It only runs while the joke shows.
     */
    method JokeTimeout()
      requires Valid()
      modifies this
      ensures Valid()
      ensures old(showJoke) ==> !selfDestruct && !showJoke && countdown == CountdownStart
      ensures !old(showJoke) ==> selfDestruct == old(selfDestruct) && showJoke == old(showJoke) && countdown == old(countdown)
      ensures crtEnabled == old(crtEnabled) && konamiIndex == old(konamiIndex)
    {
      if showJoke {
        selfDestruct := false;
        showJoke := false;
        countdown := CountdownStart;
      }
    }

    /** The toggle button flips the CRT effect. */
    method ToggleCrt()
      requires Valid()
      modifies this
      ensures Valid()
      ensures crtEnabled == !old(crtEnabled)
      ensures konamiIndex == old(konamiIndex) && selfDestruct == old(selfDestruct)
      ensures countdown == old(countdown) && showJoke == old(showJoke)
    {
      crtEnabled := !crtEnabled;
    }
  }

  /**
   * A whole episode from a fresh overlay: typing the sequence starts the
   * self-destruct, the screen shows 5, 4, 3, 2, 1 and 0 a second apart, then
   * the joke, then everything is reset; toggling the CRT twice restores it.
   */
  method SelfDestructEpisode()
    returns (triggered: bool, shown: seq<int>, joke: bool, resetAfter: bool, crtAfterTwoToggles: bool)
    ensures triggered
    ensures shown == [5, 4, 3, 2, 1, 0]
    ensures joke
    ensures resetAfter
    ensures crtAfterTwoToggles
  {
    var o := new Overlay();
    o.HandleKeyDown("ArrowUp");
    o.HandleKeyDown("ArrowUp");
    o.HandleKeyDown("ArrowLeft");
    o.HandleKeyDown("ArrowDown");
    o.HandleKeyDown("ArrowRight");
    triggered := o.selfDestruct && o.konamiIndex == 0;
    shown := [o.countdown];
    var i := 0;
    while i < 5
      invariant 0 <= i <= 5
      invariant o.Valid() && o.selfDestruct && o.crtEnabled
      invariant o.countdown == CountdownStart - i
      invariant o.showJoke == (i == 5)
      invariant |shown| == i + 1
      invariant forall j :: 0 <= j <= i ==> shown[j] == CountdownStart - j
    {
      o.Tick();
      shown := shown + [o.countdown];
      i := i + 1;
    }
    joke := o.showJoke;
    o.JokeTimeout();
    resetAfter := !o.selfDestruct && !o.showJoke && o.countdown == CountdownStart;
    o.ToggleCrt();
    o.ToggleCrt();
    crtAfterTwoToggles := o.crtEnabled;
  }
}
