/**
 * The settings page: the SOS voice code (saved to local storage when it has
 * at least three characters), the voice match that raises SOS, the theme
 * switch and the two preference toggles. Lower-casing is ASCII lower-casing.
 */
module Settings {

  import opened Options
  import opened AppContext

  const MinCodeLength: nat := 3

  /**
   * The JavaScript `length` of a string: its count of UTF-16 code units, one
   * for a character of the basic plane and two (a surrogate pair) above it.
   */
  function Utf16Length(s: string): (n: nat)
    ensures |s| <= n <= 2 * |s|
    ensures (forall i :: 0 <= i < |s| ==> s[i] as int < 0x1_0000) ==> n == |s|
    decreases |s|
  {
    if s == [] then 0 else (if s[0] as int < 0x1_0000 then 1 else 2) + Utf16Length(s[1..])
  }

  predicate CodeAccepted(code: string) {
    Utf16Length(code) >= MinCodeLength
  }

  /**
   * Three characters always suffice and one never does; two suffice exactly
   * when one of them lies above the basic plane, as two emoji do.
   */
  lemma CodeAcceptedBounds(code: string)
    ensures |code| >= MinCodeLength ==> CodeAccepted(code)
    ensures |code| <= 1 ==> !CodeAccepted(code)
    ensures |code| == 2 ==> (CodeAccepted(code) <==> code[0] as int >= 0x1_0000 || code[1] as int >= 0x1_0000)
    ensures CodeAccepted("\U{1F600}\U{1F600}") && !CodeAccepted("ab")
  {
    if |code| == 2 {
      var rest := code[1..];
      assert rest[0] == code[1] && rest[1..] == [];
      assert Utf16Length(rest) == if code[1] as int < 0x1_0000 then 1 else 2;
    }
  }

  predicate IsUpper(c: char) {
    'A' <= c <= 'Z'
  }

  function LowerChar(c: char): char {
    if IsUpper(c) then (c as int - 'A' as int + 'a' as int) as char else c
  }

  /**
   * ASCII lower-casing: no upper-case letter is left, each upper-case letter
   * becomes the same letter of the lower-case alphabet, and every other
   * character stays, so a string without upper-case letters is unchanged.
   */
  function Lower(s: string): (r: string)
    ensures |r| == |s|
    ensures forall i :: 0 <= i < |r| ==> !IsUpper(r[i])
    ensures forall i :: 0 <= i < |s| && IsUpper(s[i]) ==> 'a' <= r[i] <= 'z' && r[i] as int - 'a' as int == s[i] as int - 'A' as int
    ensures forall i :: 0 <= i < |s| && !IsUpper(s[i]) ==> r[i] == s[i]
    ensures (forall i :: 0 <= i < |s| ==> !IsUpper(s[i])) ==> r == s
  {
    seq(|s|, i requires 0 <= i < |s| => LowerChar(s[i]))
  }

  lemma LowerIsIdempotent(s: string)
    ensures Lower(Lower(s)) == Lower(s)
  {
  }

  /** `needle` occurs in `hay` starting at position `k`. */
  predicate OccursAt(needle: string, hay: string, k: int) {
    0 <= k && k + |needle| <= |hay| && hay[k..k + |needle|] == needle
  }

  /** `needle` occurs in `hay` at some position: the meaning of `includes`. */
  ghost predicate OccursIn(needle: string, hay: string) {
    exists k :: OccursAt(needle, hay, k)
  }

  /** `hay.includes(needle)`, scanning from the front. */
  function Includes(hay: string, needle: string): bool
    decreases |hay|
  {
    if |needle| <= |hay| && hay[..|needle|] == needle then true
    else if hay == [] then false
    else Includes(hay[1..], needle)
  }

  /** The scan finds the needle exactly when it occurs somewhere. */
  lemma {:induction false} IncludesIffOccurs(hay: string, needle: string)
    ensures Includes(hay, needle) <==> OccursIn(needle, hay)
    decreases |hay|
  {
    if |needle| <= |hay| && hay[..|needle|] == needle {
      assert OccursAt(needle, hay, 0);
    } else if hay != [] {
      IncludesIffOccurs(hay[1..], needle);
      if OccursIn(needle, hay) {
        var k :| OccursAt(needle, hay, k);
        assert k != 0;
        assert hay[1..][k - 1..k - 1 + |needle|] == hay[k..k + |needle|];
        assert OccursAt(needle, hay[1..], k - 1);
      }
      if OccursIn(needle, hay[1..]) {
        var k :| OccursAt(needle, hay[1..], k);
        assert hay[k + 1..k + 1 + |needle|] == hay[1..][k..k + |needle|];
        assert OccursAt(needle, hay, k + 1);
      }
    }
  }

  /**
   * The speech handler's test: the latest transcript, lower-cased, contains
   * the saved code, lower-cased; an absent or empty saved code never matches.
   */
  function VoiceTriggers(results: seq<string>, saved: Option<string>): bool
    requires |results| > 0
  {
    && saved.Some?
    && Lower(saved.value) != ""
    && Includes(Lower(results[|results| - 1]), Lower(saved.value))
  }

  /** The voice test fires exactly when a non-empty saved code occurs, ignoring case, in the latest transcript. */
  lemma VoiceTriggersMeaning(results: seq<string>, saved: Option<string>)
    requires |results| > 0
    ensures VoiceTriggers(results, saved) <==>
      saved.Some? && saved.value != "" && OccursIn(Lower(saved.value), Lower(results[|results| - 1]))
  {
    if saved.Some? {
      IncludesIffOccurs(Lower(results[|results| - 1]), Lower(saved.value));
    }
  }

  /** Changing the letter case of the transcripts or of the code never changes the outcome. */
  lemma VoiceTriggersIgnoresCase(results: seq<string>, results': seq<string>, code: string, code': string)
    requires |results| > 0 && |results'| > 0
    requires Lower(results[|results| - 1]) == Lower(results'[|results'| - 1])
    requires Lower(code) == Lower(code')
    ensures VoiceTriggers(results, Some(code)) == VoiceTriggers(results', Some(code'))
  {
  }

  /** Only the latest transcript counts: earlier results are ignored. */
  lemma VoiceTriggersOnLatest(earlier: seq<string>, latest: string, saved: Option<string>)
    ensures VoiceTriggers(earlier + [latest], saved) == VoiceTriggers([latest], saved)
  {
  }

  class SettingsPage {
    const store: Store
    /** The code input. */
    var sosCode: string
    var notifications: bool
    var locationSharing: bool
    /** The `sosCode` entry of local storage. */
    var storedCode: Option<string>

    ghost predicate Valid()
      reads this, store
    {
      store.Valid()
    }

    constructor (store: Store, stored: Option<string>)
      requires store.Valid()
      ensures Valid() && this.store == store
      ensures sosCode == "" && notifications && locationSharing && storedCode == stored
    {
      this.store := store;
      sosCode := "";
      notifications, locationSharing := true, true;
      storedCode := stored;
    }

    method SetSosCode(text: string)
      modifies this`sosCode
      ensures sosCode == text
    {
      sosCode := text;
    }

    /**
     * Save: a code of at least three UTF-16 units is written to local storage
     * and, for a signed-in rider, copied into the user record by SET_USER. A
     * shorter code is refused, and a write that local storage refuses
     * (`written` false) throws before the dispatch; either way nothing
     * changes. `saved` is whether the code was stored.
     */
    method SaveSosCode(written: bool) returns (saved: bool)
      requires Valid()
      modifies store, this`storedCode
      ensures Valid()
      ensures saved <==> CodeAccepted(sosCode) && written
      ensures saved && old(store.state.user).Some? ==>
        && storedCode == Some(sosCode)
        && store.log == old(store.log) + [SetUser(old(store.state.user).value.(sosCode := Some(sosCode)))]
        && store.state.user == Some(old(store.state.user).value.(sosCode := Some(sosCode)))
      ensures saved && old(store.state.user).None? ==>
        storedCode == Some(sosCode) && store.log == old(store.log) && store.state == old(store.state)
      ensures !saved ==>
        storedCode == old(storedCode) && store.log == old(store.log) && store.state == old(store.state)
    {
      saved := CodeAccepted(sosCode) && written;
      if saved {
        storedCode := Some(sosCode);
        if store.state.user.Some? {
          store.Dispatch(SetUser(store.state.user.value.(sosCode := Some(sosCode))));
        }
      }
    }

    /** A speech result arrives while listening: SOS is raised when the stored code matches. */
    method VoiceResult(results: seq<string>) returns (activated: bool)
      requires Valid() && |results| > 0
      modifies store
      ensures Valid()
      ensures activated == VoiceTriggers(results, storedCode)
      ensures store.log == old(store.log) + (if activated then [ActivateSos] else [])
      ensures activated ==> store.state.sosActive
    {
      activated := VoiceTriggers(results, storedCode);
      if activated {
        store.Dispatch(ActivateSos);
      }
    }

    method ThemeToggle()
      requires Valid()
      modifies store
      ensures Valid()
      ensures store.log == old(store.log) + [ToggleTheme]
      ensures store.state.theme != old(store.state.theme)
    {
      store.Dispatch(ToggleTheme);
    }

    method ToggleNotifications()
      modifies this`notifications
      ensures notifications == !old(notifications)
    {
      notifications := !notifications;
    }

    method ToggleLocationSharing()
      modifies this`locationSharing
      ensures locationSharing == !old(locationSharing)
    {
      locationSharing := !locationSharing;
    }
  }

  /** Two clicks on a preference toggle restore it. */
  method ToggleTwice(page: SettingsPage)
    modifies page
    ensures page.notifications == old(page.notifications)
    ensures page.locationSharing == old(page.locationSharing)
  {
    page.ToggleNotifications();
    page.ToggleNotifications();
    page.ToggleLocationSharing();
    page.ToggleLocationSharing();
  }
}
