/** The browser position request (services/geolocationService.ts): an unsupported browser is
    refused before anything is asked, a fix yields its latitude and longitude, and every failure
    code of the W3C Geolocation API's `GeolocationPositionError` becomes a message under one
    common prefix. Whether the browser offers geolocation and what the device answers are
    inputs. */
module Geolocation {
  import opened Wrappers
  import opened Text
  import opened Types

  // ---------------------------------------------------------------- inputs and outputs

  /** The failure codes of `GeolocationPositionError`. */
  const PermissionDenied: nat := 1
  const PositionUnavailable: nat := 2
  const Timeout: nat := 3

  /** The options a position request is made with. */
  datatype PositionOptions = PositionOptions(enableHighAccuracy: bool, timeout: nat, maximumAge: nat)

  /** What the device reports on success: the fix and its accuracy radius in metres. */
  datatype Position = Position(latitude: real, longitude: real, accuracy: real)

  /** How the device answers a request: with a position or with a failure code. */
  datatype PositionOutcome = Located(position: Position) | Failed(code: nat)

  /** One call of `getCurrentLocation`: the options the device was asked with (none when the
      browser has no geolocation) and how the promise settles. */
  datatype Lookup = Lookup(requested: Option<PositionOptions>, result: Result<Coordinates, string>)

  const NotSupportedMessage := "Geolocation is not supported by your browser. Please enable it or use a modern browser."
  const ErrorPrefix := "Error getting location: "
  const PermissionDeniedText := "User denied the request for Geolocation."
  const PositionUnavailableText := "Location information is unavailable."
  const TimeoutText := "The request to get user location timed out."
  const UnknownCodeOpening := "An unknown error occurred (Code: "
  const UnknownCodeClosing := ")."

  /** A fresh, high-accuracy fix within ten seconds. */
  const RequestOptions := PositionOptions(true, 10000, 0)

  // ---------------------------------------------------------------- operations

  /** The text the error callback appends to the prefix for a failure code. */
  function ErrorSuffix(code: nat): (s: string)
    ensures code == PermissionDenied ==> s == PermissionDeniedText
    ensures code == PositionUnavailable ==> s == PositionUnavailableText
    ensures code == Timeout ==> s == TimeoutText
    ensures !(1 <= code <= 3) ==> s == UnknownCodeOpening + NatToString(code) + UnknownCodeClosing
  {
    if code == PermissionDenied then PermissionDeniedText
    else if code == PositionUnavailable then PositionUnavailableText
    else if code == Timeout then TimeoutText
    else UnknownCodeOpening + NatToString(code) + UnknownCodeClosing
  }

  /** The message a failure is rejected with: always the common prefix, then the suffix. */
  function ErrorMessage(code: nat): (m: string)
    ensures |m| > |ErrorPrefix| && m[..|ErrorPrefix|] == ErrorPrefix
    ensures m[|ErrorPrefix|..] == ErrorSuffix(code)
  {
    ErrorPrefix + ErrorSuffix(code)
  }

  /** `getCurrentLocation` given whether `navigator.geolocation` exists and, when it does, how the
      device answers. */
  function GetCurrentLocation(supported: bool, outcome: PositionOutcome): (r: Lookup)
    ensures !supported ==> r.requested.None? && r.result == Err(NotSupportedMessage)
    ensures supported ==> r.requested == Some(RequestOptions)
    ensures supported && outcome.Located? ==>
              r.result == Ok(Coordinates(outcome.position.latitude, outcome.position.longitude))
    ensures supported && outcome.Failed? ==> r.result == Err(ErrorMessage(outcome.code))
  {
    if !supported then Lookup(None, Err(NotSupportedMessage))
    else
      match outcome
      case Located(position) => Lookup(Some(RequestOptions), Ok(Coordinates(position.latitude, position.longitude)))
      case Failed(code) => Lookup(Some(RequestOptions), Err(ErrorMessage(code)))
  }

  // ---------------------------------------------------------------- properties

  /** Every request is for a fresh, high-accuracy fix within ten seconds. */
  lemma RequestIsFreshAndAccurate(supported: bool, outcome: PositionOutcome)
    ensures GetCurrentLocation(supported, outcome).requested.Some? <==> supported
    ensures GetCurrentLocation(supported, outcome).requested.Some? ==>
              var o := GetCurrentLocation(supported, outcome).requested.value;
              o.enableHighAccuracy && o.timeout == 10000 && o.maximumAge == 0
  {
  }

  /** Every device failure can be recognised by its prefix. */
  lemma FailuresCarryPrefix(outcome: PositionOutcome)
    ensures var r := GetCurrentLocation(true, outcome).result;
            r.Err? ==> |r.error| > |ErrorPrefix| && r.error[..|ErrorPrefix|] == ErrorPrefix
  {
  }

  /** The rejection of an unsupported browser is never one of the device failure messages. */
  lemma {:induction false} NotSupportedIsNoFailure(code: nat)
    ensures ErrorMessage(code) != NotSupportedMessage
  {
    var m := ErrorMessage(code);
    assert |NotSupportedMessage| == 87 && NotSupportedMessage[85] == 'r';
    if |m| == 87 {
      var digits := NatToString(code);
      assert !(1 <= code <= 3);
      assert m == ErrorPrefix + UnknownCodeOpening + digits + UnknownCodeClosing;
      assert m[85] == ')';
    }
  }

  /** A fix is passed on unaltered: only the accuracy is dropped. */
  lemma FixPassedOn(outcome: PositionOutcome)
    requires outcome.Located?
    ensures GetCurrentLocation(true, outcome).result.Ok?
    ensures GetCurrentLocation(true, outcome).result.value.latitude == outcome.position.latitude
    ensures GetCurrentLocation(true, outcome).result.value.longitude == outcome.position.longitude
  {
  }

  /** Two failure codes give the same message only if they are the same code: the three named
      codes have distinct texts, and an unknown code is spelled out in decimal. */
  lemma {:induction false} ErrorMessageInjective(c1: nat, c2: nat)
    requires ErrorMessage(c1) == ErrorMessage(c2)
    ensures c1 == c2
  {
    var s1, s2 := ErrorSuffix(c1), ErrorSuffix(c2);
    assert s1 == s2 by {
      assert s1 == ErrorMessage(c1)[|ErrorPrefix|..];
      assert s2 == ErrorMessage(c2)[|ErrorPrefix|..];
    }
    if !(1 <= c1 <= 3) && !(1 <= c2 <= 3) {
      UnknownSuffixCode(c1);
      UnknownSuffixCode(c2);
    } else if !(1 <= c1 <= 3) {
      UnknownSuffixOpens(c1);
      KnownSuffixesDistinct(c2);
    } else if !(1 <= c2 <= 3) {
      UnknownSuffixOpens(c2);
      KnownSuffixesDistinct(c1);
    } else {
      KnownSuffixesDistinct(c1);
      KnownSuffixesDistinct(c2);
    }
  }

  /** The three named texts differ from each other and none opens like the unknown-code text. */
  lemma KnownSuffixesDistinct(code: nat)
    requires 1 <= code <= 3
    ensures |ErrorSuffix(code)| > 0 && ErrorSuffix(code)[0] != UnknownCodeOpening[0]
    ensures code == PermissionDenied <==> ErrorSuffix(code)[0] == 'U'
    ensures code == PositionUnavailable <==> ErrorSuffix(code)[0] == 'L'
    ensures code == Timeout <==> ErrorSuffix(code)[0] == 'T'
  {
  }

  /** An unknown code's text opens with the fixed opening. */
  lemma UnknownSuffixOpens(code: nat)
    requires !(1 <= code <= 3)
    ensures |ErrorSuffix(code)| > 0 && ErrorSuffix(code)[0] == UnknownCodeOpening[0]
  {
  }

  /** The code can be read back from an unknown code's text. */
  lemma UnknownSuffixCode(code: nat)
    requires !(1 <= code <= 3)
    ensures var s := ErrorSuffix(code);
            |s| > |UnknownCodeOpening| + |UnknownCodeClosing| &&
            DigitsValue(s[|UnknownCodeOpening|..|s| - |UnknownCodeClosing|]) == code
  {
    var digits := NatToString(code);
    var s := ErrorSuffix(code);
    assert s[|UnknownCodeOpening|..|s| - |UnknownCodeClosing|] == digits;
    NatToStringValue(code);
  }
}
