/**
 * The debug panel's light handlers: a change of intensity, angle or penumbra
 * is written into that one field of every spotlight in the component's
 * `lights` list, and nothing else is touched.
 *
 * The values are `real`s; the panel's ranges and steps belong to the panel
 * widget and are not enforced by the handlers.
 */
module Lights {

  /** The three tunable parameters of a three.js `SpotLight`. */
  class SpotLight {
    var intensity: real
    var angle: real
    var penumbra: real

    constructor (intensity: real, angle: real, penumbra: real)
      ensures this.intensity == intensity && this.angle == angle && this.penumbra == penumbra
    {
      this.intensity, this.angle, this.penumbra := intensity, angle, penumbra;
    }
  }

  /** The `lightIntensity` handler: `lights.forEach(spotlight => spotlight.intensity = intensity)`. */
  method SetIntensity(lights: seq<SpotLight>, intensity: real)
    modifies lights`intensity
    ensures forall i :: 0 <= i < |lights| ==> lights[i].intensity == intensity
    ensures forall i :: 0 <= i < |lights| ==>
      lights[i].angle == old(lights[i].angle) && lights[i].penumbra == old(lights[i].penumbra)
  {
    var k := 0;
    while k < |lights|
      invariant 0 <= k <= |lights|
      invariant forall i :: 0 <= i < k ==> lights[i].intensity == intensity
    {
      lights[k].intensity := intensity;
      k := k + 1;
    }
  }

  /** The `lightAngle` handler: `lights.forEach(spotlight => spotlight.angle = angle)`. */
  method SetAngle(lights: seq<SpotLight>, angle: real)
    modifies lights`angle
    ensures forall i :: 0 <= i < |lights| ==> lights[i].angle == angle
    ensures forall i :: 0 <= i < |lights| ==>
      lights[i].intensity == old(lights[i].intensity) && lights[i].penumbra == old(lights[i].penumbra)
  {
    var k := 0;
    while k < |lights|
      invariant 0 <= k <= |lights|
      invariant forall i :: 0 <= i < k ==> lights[i].angle == angle
    {
      lights[k].angle := angle;
      k := k + 1;
    }
  }

  /** The `penumbra` handler: `lights.forEach(spotlight => spotlight.penumbra = penumbra)`. */
  method SetPenumbra(lights: seq<SpotLight>, penumbra: real)
    modifies lights`penumbra
    ensures forall i :: 0 <= i < |lights| ==> lights[i].penumbra == penumbra
    ensures forall i :: 0 <= i < |lights| ==>
      lights[i].intensity == old(lights[i].intensity) && lights[i].angle == old(lights[i].angle)
  {
    var k := 0;
    while k < |lights|
      invariant 0 <= k <= |lights|
      invariant forall i :: 0 <= i < k ==> lights[i].penumbra == penumbra
    {
      lights[k].penumbra := penumbra;
      k := k + 1;
    }
  }
}
