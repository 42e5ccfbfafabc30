/**
 * The prototype demo (src/bin/prototype.rs): warriors are cloned from
 * prototypes kept in a dictionary. The hand-written `Clone` copies the name
 * but always sets the force to 90, so a clone is a faithful copy only of a
 * prototype whose force already is 90.
 */
module Prototype {

  /** Rust's `u32`, the type of a warrior's force. */
  type Force = x: nat | x < 0x1_0000_0000

  datatype Warrior = Warrior(name: string, force: Force)

  /** `clone`: a new warrior with the same name and force 90; the original is a value and stays as it is. */
  function Clone(w: Warrior): (r: Warrior)
    ensures r.name == w.name && r.force == 90
  {
    Warrior(w.name, 90)
  }

  /** A clone equals its original exactly when the original's force is 90. */
  lemma CloneIsCopyIff(w: Warrior)
    ensures Clone(w) == w <==> w.force == 90
  {
  }

  /**
   * The loop of `main`: five rounds, each pushing a clone of the "Knight"
   * prototype and then one of the "Farmer" prototype. Both keys must be in
   * the dictionary, as `unwrap` panics otherwise.
   */
  method Army(prototypes: map<string, Warrior>, rounds: nat) returns (warriors: seq<Warrior>)
    requires "Knight" in prototypes && "Farmer" in prototypes
    ensures |warriors| == 2 * rounds
    ensures forall i :: 0 <= i < |warriors| ==>
      warriors[i] == Clone(prototypes[if i % 2 == 0 then "Knight" else "Farmer"])
  {
    warriors := [];
    var round := 0;
    while round < rounds
      invariant 0 <= round <= rounds
      invariant |warriors| == 2 * round
      invariant forall i :: 0 <= i < |warriors| ==>
        warriors[i] == Clone(prototypes[if i % 2 == 0 then "Knight" else "Farmer"])
    {
      warriors := warriors + [Clone(prototypes["Knight"])];
      warriors := warriors + [Clone(prototypes["Farmer"])];
      round := round + 1;
    }
  }

  /**
   * The demo in `main`: a Knight of force 90 and a Farmer of force 40 as
   * prototypes give ten warriors, Knight and Farmer in turn, all of force 90.
   */
  method PrototypeDemo() returns (farmer: Warrior, warriors: seq<Warrior>)
    ensures farmer.force == 40
    ensures |warriors| == 10 && warriors[1].name == farmer.name && warriors[1] != farmer
    ensures forall i :: 0 <= i < 10 ==> warriors[i].force == 90
    ensures forall i :: 0 <= i < 10 ==> warriors[i].name == if i % 2 == 0 then "Knight" else "Farmer"
  {
    farmer := Warrior("Farmer", 40);
    var prototypes := map["Knight" := Warrior("Knight", 90), "Farmer" := farmer];
    warriors := Army(prototypes, 5);
  }
}
