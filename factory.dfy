/**
 * The simple-factory demo (src/bin/factory.rs): a door factory refuses names
 * longer than 10 bytes. Rust strings are UTF-8 and `len` counts bytes, so the
 * limit is on the UTF-8 length of the name, not on its number of characters.
 */
module Factory {
  import opened Wrappers

  datatype Color = White | Black

  datatype Door = Door(name: string, color: Color)

  /** The number of bytes UTF-8 uses for one character. */
  function Utf8Width(c: char): (n: nat)
    ensures 1 <= n <= 4
    ensures n == 1 <==> (c as int) < 0x80
  {
    if (c as int) < 0x80 then 1
    else if (c as int) < 0x800 then 2
    else if (c as int) < 0x1_0000 then 3
    else 4
  }

  /** `str::len`: the length of the text in UTF-8 bytes. */
  function Utf8Len(s: string): (n: nat)
    ensures |s| <= n <= 4 * |s|
  {
    if s == [] then 0 else Utf8Len(s[..|s| - 1]) + Utf8Width(s[|s| - 1])
  }

  /** Each character takes one to four bytes, and ASCII text takes one per character. */
  lemma {:induction false} Utf8LenBounds(s: string)
    ensures |s| <= Utf8Len(s) <= 4 * |s|
    ensures Utf8Len(s) == |s| <==> forall i :: 0 <= i < |s| ==> (s[i] as int) < 0x80
  {
    if s != [] {
      var init := s[..|s| - 1];
      Utf8LenBounds(init);
      assert forall i :: 0 <= i < |init| ==> init[i] == s[i];
    }
  }

  /** `Door::new`. */
  function NewDoor(name: string, color: Color): (d: Door)
    ensures d.name == name && d.color == color
  {
    Door(name, color)
  }

  /** `DoorFactory::make`: no door for a name over 10 bytes, otherwise the door asked for. */
  function Make(name: string, color: Color): (r: Option<Door>)
    ensures r.None? <==> Utf8Len(name) > 10
    ensures r.Some? ==> r.value.name == name && r.value.color == color
  {
    if Utf8Len(name) > 10 then None else Some(NewDoor(name, color))
  }

  /**
   * In characters: a name of more than 10 characters is always refused, one of
   * at most 2 always accepted, and an ASCII name is accepted exactly when it
   * has at most 10 characters; in between, it depends on the characters.
   */
  lemma MakeByCharacters(name: string, color: Color)
    ensures |name| > 10 ==> Make(name, color).None?
    ensures |name| <= 2 ==> Make(name, color).Some?
    ensures (forall i :: 0 <= i < |name| ==> (name[i] as int) < 0x80) ==>
      (Make(name, color).Some? <==> |name| <= 10)
  {
    Utf8LenBounds(name);
  }

  /** The call in `main`: "Wood Door" is 9 bytes, so the door is made. */
  function MainDoor(): (r: Option<Door>)
    ensures r == Some(Door("Wood Door", White))
  {
    Utf8LenBounds("Wood Door");
    Make("Wood Door", White)
  }
}
