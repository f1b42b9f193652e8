/**
 * The opacity envelope used when a particle is drawn: fade in over the first
 * second of life, fade out over the last second, fully opaque in between.
 */
module Fade {

  function Min3(a: real, b: real, c: real): (m: real)
    ensures m <= a && m <= b && m <= c
    ensures m == a || m == b || m == c
  {
    if a <= b && a <= c then a else if b <= c then b else c
  }

  /** Opacity of a particle of the given age and lifespan. */
  function Alpha(age: real, lifespan: real): (a: real)
    ensures 0.0 <= age < lifespan ==> 0.0 <= a <= 1.0
    ensures 2.0 <= lifespan && 0.0 <= age <= lifespan ==> a == Min3(age, lifespan - age, 1.0)
  {
    var remainingLife := lifespan - age;
    if age < 1.0 then age
    else if remainingLife < 1.0 then remainingLife
    else 1.0
  }

  /** The sample values of the envelope for a five-second lifespan. */
  lemma AlphaSamples()
    ensures Alpha(0.0, 5.0) == 0.0
    ensures Alpha(0.5, 5.0) == 0.5
    ensures Alpha(2.5, 5.0) == 1.0
    ensures Alpha(4.5, 5.0) == 0.5
    ensures Alpha(4.99, 5.0) == 0.01
  {
  }
}
