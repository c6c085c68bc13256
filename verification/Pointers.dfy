/** The two pointers, `current` and `forward-fix`: files of one line beside the directories of the store. */
module Pointers {
  import opened Outcomes
  import opened Model
  import opened Patterns
  import opened Durability

  function PointerText(x: Sha): string {
    x + "\n"
  }

  /** One line that ends, and holds a SHA. */
  function ReadPointer(text: string): Option<Sha> {
    var n := |text|;
    if n > 0 && text[n - 1] == '\n' && '\n' !in text[..n - 1] && IsSha(text[..n - 1]) then Some(text[..n - 1]) else None
  }

  lemma {:induction false} AllHexIsOneLine(s: string)
    requires All(s, Hex)
    ensures '\n' !in s
  {
    if s == "" {
    } else {
      AllHexIsOneLine(s[1..]);
      assert s == [s[0]] + s[1..];
    }
  }

  /** Each SHA has one text, and that text alone reads as it. */
  lemma PointerTextIsUnique(text: string, x: Sha)
    ensures ReadPointer(text) == Some(x) <==> IsSha(x) && text == PointerText(x)
  {
    if IsSha(x) {
      AllHexIsOneLine(x);
      assert PointerText(x)[..|x|] == x;
    }
  }

  /** What the file names; one that is there has to be readable. */
  function PointerAt(visible: map<string, string>, path: string): Outcome<Option<Sha>> {
    if path !in visible then Done(None)
    else if ReadPointer(visible[path]).Some? then Done(ReadPointer(visible[path]))
    else Defect
  }

  /** Whatever power failure comes, the file names one of two things. */
  ghost predicate SaysAfterFailure(d: Disk, path: string, was: Outcome<Option<Sha>>,
                                  next: Outcome<Option<Sha>>) {
    forall lost :: Survives(d, lost) ==>
      lost.Sound() && (PointerAt(lost.Visible(), path) == was || PointerAt(lost.Visible(), path) == next)
  }

  lemma Says(path: string, visible: map<string, string>, x: Sha)
    requires IsSha(x)
    ensures PointerAt(visible[path := PointerText(x)], path) == Done(Some(x))
    ensures PointerAt(visible - {path}, path) == Done(None)
  {
    PointerTextIsUnique(PointerText(x), x);
  }

  lemma SaysSettled(d: Disk, path: string, says: Outcome<Option<Sha>>)
    requires d.Sound() && d.Settled() == d.Visible() && PointerAt(d.Visible(), path) == says
    ensures SaysAfterFailure(d, path, says, says)
  {
    StableIff(d);
  }

  /** `_read_pointer`, or nothing if the file is not there. */
  method LoadPointer(d: Directory, path: string) returns (r: Outcome<Option<Sha>>)
    requires d.disk.Sound() && !Leftover(path)
    ensures r == PointerAt(d.disk.Visible(), path)
  {
    if path !in d.disk.live {
      return Done(None);
    }
    assert path in d.disk.Visible();
    var x := ReadPointer(d.disk.files[d.disk.live[path]].bytes);
    r := if x.Some? then Done(x) else Defect;
  }

  /** The write of `set_current` and `set_forward_fix`: the file names the old or the new at any time, also after a
      power failure if the directory was settled, and the new for good after a normal return; no other file is
      touched. */
  method WritePointer(d: Directory, path: string, x: Sha, random: string, i: nat) returns (r: Outcome<()>)
    requires d.disk.Sound() && IsSha(x) && !Leftover(path)
    requires Temporary(path, random) !in d.disk.live && i !in d.disk.files
    modifies d
    ensures d.disk.Sound() && (r.Done? || r.Crashed?)
    ensures d.disk.Visible() - {path} == old(d.disk).Visible() - {path}
    ensures var was, says := PointerAt(old(d.disk).Visible(), path), PointerAt(d.disk.Visible(), path);
            && (says == was || says == Done(Some(x)))
            && (old(d.disk.Settled() == d.disk.Visible()) ==> SaysAfterFailure(d.disk, path, was, Done(Some(x))))
    ensures r.Done? ==> SaysAfterFailure(d.disk, path, Done(Some(x)), Done(Some(x)))
    ensures r.Done? ==> PointerAt(d.disk.Visible(), path) == Done(Some(x)) && d.disk.Settled() == d.disk.Visible()
  {
    Says(path, d.disk.Visible(), x);
    r := d.AtomicBytes(path, PointerText(x), random, i);
    assert d.disk.Visible() - {path} == old(d.disk).Visible() - {path};
    forall lost | old(d.disk.Settled() == d.disk.Visible()) && Survives(d.disk, lost)
      ensures lost.Sound()
      ensures var says := PointerAt(lost.Visible(), path);
              says == PointerAt(old(d.disk).Visible(), path) || says == Done(Some(x))
    {
      InterruptedWrite(old(d.disk), d.disk, lost, path, PointerText(x));
    }
    if r.Done? {
      SaysSettled(d.disk, path, Done(Some(x)));
    }
  }

  /** The removal of `clear_forward_fix_after_success`: the file names the old or nothing at any time, also after a
      power failure if the directory was settled, and nothing for good after a normal return; no other file is
      touched. */
  method RemovePointer(d: Directory, path: string) returns (r: Outcome<()>)
    requires d.disk.Sound() && !Leftover(path) && path in d.disk.Visible()
    modifies d
    ensures d.disk.Sound() && (r.Done? || r.Crashed?)
    ensures d.disk.Visible() - {path} == old(d.disk).Visible() - {path}
    ensures var was, says := PointerAt(old(d.disk).Visible(), path), PointerAt(d.disk.Visible(), path);
            && (says == was || says == Done(None))
            && (old(d.disk.Settled() == d.disk.Visible()) ==> SaysAfterFailure(d.disk, path, was, Done(None)))
    ensures r.Done? ==> SaysAfterFailure(d.disk, path, Done(None), Done(None))
    ensures r.Done? ==> PointerAt(d.disk.Visible(), path) == Done(None) && d.disk.Settled() == d.disk.Visible()
  {
    r := d.Remove(path);
    assert d.disk.Visible() - {path} == old(d.disk).Visible() - {path};
    forall lost | old(d.disk.Settled() == d.disk.Visible()) && Survives(d.disk, lost)
      ensures lost.Sound()
      ensures var says := PointerAt(lost.Visible(), path);
              says == PointerAt(old(d.disk).Visible(), path) || says == Done(None)
    {
      InterruptedRemoval(old(d.disk), d.disk, lost, path);
    }
    if r.Done? {
      SaysSettled(d.disk, path, Done(None));
    }
  }
}
