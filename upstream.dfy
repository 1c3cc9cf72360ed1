/**
 * Values received from the upstream weather provider (a geocoding match, one sample of
 * the 3-hourly forecast series) and the rounding the normalisers apply to readings.
 */
module Upstream {

  import opened Calendar

  /** Temperatures and wind speeds are carried in hundredths of a unit. */
  const Scale: int := 100

  /**
   * A raw forecast point: `dt` in seconds since the epoch, `main.temp`, `main.humidity`,
   * `wind.speed`, and `icon` and `description` of the point's first `weather` entry.
   */
  datatype RawPoint = RawPoint(
    dt: int,
    temp: int,
    humidity: int,
    windSpeed: int,
    icon: string,
    description: string)

  /**
   * One element of a geocoding answer. Latitude and longitude are carried as the decimal
   * text that string interpolation of the number produces.
   */
  datatype GeoMatch = GeoMatch(name: string, lat: string, lon: string, country: string, state: string)

  /** The coordinates the rest of the program keeps of a geocoding match. */
  datatype Coordinates = Coordinates(lat: string, lon: string, name: string)

  /** Sample `i` lies at least an hour after sample `i - 1`. */
  predicate StepAfter(list: seq<RawPoint>, i: nat)
    requires 0 < i < |list|
  {
    list[i - 1].dt + SecondsPerHour <= list[i].dt
  }

  /** Consecutive samples lie at least an hour apart (the upstream series steps by 3 hours). */
  predicate Spaced(list: seq<RawPoint>)
  {
    forall i :: 0 < i < |list| ==> StepAfter(list, i)
  }

  /** In a spaced series any two samples lie at least an hour apart. */
  lemma {:induction false} SpacedApart(list: seq<RawPoint>, a: nat, b: nat)
    requires Spaced(list) && a < b < |list|
    ensures list[a].dt + SecondsPerHour <= list[b].dt
  {
    assert StepAfter(list, b);
    if a < b - 1 {
      SpacedApart(list, a, b - 1);
    }
  }

  /**
   * `Math.round` of a reading given in hundredths: the nearest integer, halves rounded
   * up (towards positive infinity, also for negative readings).
   */
  function Round(hundredths: int): (r: int)
    ensures r * Scale - Scale / 2 <= hundredths < r * Scale + Scale / 2
  {
    (hundredths + Scale / 2) / Scale
  }

  /** The nearest-integer property determines the rounded value uniquely. */
  lemma RoundIsUnique(hundredths: int, n: int)
    requires n * Scale - Scale / 2 <= hundredths < n * Scale + Scale / 2
    ensures Round(hundredths) == n
  {
  }
}
