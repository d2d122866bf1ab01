/**
 * Frame loading (`loadAnimations`). The host's image loader is a parameter:
 * `load(f)` is what `loadImage(f.Path())` returns on the first attempt for
 * that file (None for a file that is missing, undecodable or that scaling turns
 * into a value `if pix:` rejects), and `idleRetry` is what the second call for
 * `penguin_idle_01` returns when every idle frame failed.
 */
module PenguinLoader {
  import opened PenguinTypes

  /** The decimal digits of `n`, as Python's `str` writes them. */
  function Decimal(n: nat): (s: string)
    ensures |s| >= 1
    ensures forall k :: 0 <= k < |s| ==> '0' <= s[k] <= '9'
  {
    if n < 10 then [('0' as int + n) as char]
    else Decimal(n / 10) + [('0' as int + n % 10) as char]
  }

  /** Python's `f"{i:02d}"`: at least two digits, zero-padded on the left. */
  function Pad2(i: nat): (s: string)
    ensures |s| >= 2
    ensures forall k :: 0 <= k < |s| ==> '0' <= s[k] <= '9'
    ensures i < 100 ==> s == [('0' as int + i / 10) as char, ('0' as int + i % 10) as char]
  {
    if i < 10 then
      assert Decimal(i) == [('0' as int + i) as char];
      "0" + Decimal(i)
    else
      assert i < 100 ==> Decimal(i / 10) == [('0' as int + i / 10) as char];
      Decimal(i)
  }

  /** The sprite sheets the loader reads, one per file-name stem. */
  datatype Sprite = IdleSprite | WalkSprite | JumpSprite | AtackSprite | PreslideSprite | SlideSprite {
    /** The stem as it appears in the file name. */
    function Name(): string {
      match this
      case IdleSprite => "idle"
      case WalkSprite => "walk"
      case JumpSprite => "jump"
      case AtackSprite => "atack"
      case PreslideSprite => "preslide"
      case SlideSprite => "slide"
    }
  }

  /** Frame `number` (1-based) of `sprite`. */
  datatype SpriteFile = SpriteFile(sprite: Sprite, number: nat) {
    /** The path `loadImage` is given for this file. */
    function Path(): string {
      "images/penguin_" + sprite.Name() + "_" + Pad2(number) + ".png"
    }
  }

  /** Frames 1 to 9 of every sprite are named `images/penguin_<name>_0<digit>.png`. */
  lemma PathPattern(sprite: Sprite, n: nat)
    requires 1 <= n <= 9
    ensures SpriteFile(sprite, n).Path() ==
              "images/penguin_" + sprite.Name() + "_0" + [('0' as int + n) as char] + ".png"
  {
    assert Pad2(n) == "0" + [('0' as int + n) as char];
  }

  /** Some of the file names the loader tries, written out. */
  lemma PathExamples()
    ensures SpriteFile(IdleSprite, 1).Path() == "images/penguin_idle_01.png"
    ensures SpriteFile(WalkSprite, 8).Path() == "images/penguin_walk_08.png"
    ensures SpriteFile(PreslideSprite, 1).Path() == "images/penguin_preslide_01.png"
  {
    assert Pad2(1) == "01" && Pad2(8) == "08";
  }

  /** The load results for frames 1..count of `sprite`, in the order the loader tries them. */
  function Attempts(sprite: Sprite, count: nat, load: SpriteFile -> Frame): (rs: seq<Frame>)
    ensures |rs| == count
    ensures forall k :: 0 <= k < count ==> rs[k] == load(SpriteFile(sprite, k + 1))
  {
    if count == 0 then [] else Attempts(sprite, count - 1, load) + [load(SpriteFile(sprite, count))]
  }

  /** The results that `if pix:` lets through, in their original order. */
  function Kept(results: seq<Frame>): (frames: seq<Frame>)
    ensures |frames| <= |results|
  {
    if results == [] then []
    else (if results[0].Some? then [results[0]] else []) + Kept(results[1..])
  }

  /** Dropping failures commutes with concatenation: earlier files keep their frames first. */
  lemma {:induction false} KeptAppend(a: seq<Frame>, b: seq<Frame>)
    ensures Kept(a + b) == Kept(a) + Kept(b)
  {
    if a != [] {
      assert (a + b)[0] == a[0];
      assert (a + b)[1..] == a[1..] + b;
      KeptAppend(a[1..], b);
    } else {
      assert a + b == b;
    }
  }

  /** A frame is kept exactly when it is a successful load among the results. */
  lemma {:induction false} KeptMembers(results: seq<Frame>, p: Pixmap)
    ensures Some(p) in Kept(results) <==> Some(p) in results
  {
    if results != [] {
      KeptMembers(results[1..], p);
      assert results == [results[0]] + results[1..];
    }
  }

  /** Every kept entry is a successful load. */
  lemma {:induction false} KeptLoaded(results: seq<Frame>)
    ensures forall f :: f in Kept(results) ==> f.Some?
  {
    if results != [] {
      KeptLoaded(results[1..]);
    }
  }

  /** When every load succeeds nothing is dropped. */
  lemma {:induction false} KeptAllLoaded(results: seq<Frame>)
    requires forall k :: 0 <= k < |results| ==> results[k].Some?
    ensures Kept(results) == results
  {
    if results != [] {
      KeptAllLoaded(results[1..]);
    }
  }

  /** The list is empty only when every load failed. */
  lemma {:induction false} KeptEmpty(results: seq<Frame>)
    ensures Kept(results) == [] <==> forall k :: 0 <= k < |results| ==> results[k].None?
  {
    if results != [] {
      KeptEmpty(results[1..]);
      assert forall k :: 1 <= k < |results| ==> results[k] == results[1..][k - 1];
    }
  }

  /** How many numbered files `loadAnimations` tries for each sprite name. */
  const IDLE_FILES: nat := 4
  const WALK_FILES: nat := 8
  const JUMP_FILES: nat := 3
  const ATACK_FILES: nat := 3
  const SLIDE_FILES: nat := 3

  /** The idle results: frames 1..4 of `penguin_idle`. */
  function IdleAttempts(load: SpriteFile -> Frame): seq<Frame> { Attempts(IdleSprite, IDLE_FILES, load) }

  /** The slide results: the pre-slide frame, then frames 1..3 of `penguin_slide`. */
  function SlideAttempts(load: SpriteFile -> Frame): seq<Frame> {
    [load(SpriteFile(PreslideSprite, 1))] + Attempts(SlideSprite, SLIDE_FILES, load)
  }

  /** The idle list: the idle frames that loaded, or else the single retry result. */
  function IdleFrames(load: SpriteFile -> Frame, idleRetry: Frame): (frames: seq<Frame>)
    ensures 1 <= |frames| <= IDLE_FILES
  {
    var idle := Kept(IdleAttempts(load));
    if idle != [] then idle else [idleRetry]
  }

  /** The `animations` dictionary that `loadAnimations` builds. */
  function Animations(load: SpriteFile -> Frame, idleRetry: Frame): (m: map<AnimState, seq<Frame>>)
    ensures Idle in m && Walk in m && Jump in m && Atack in m && Slide in m
    ensures 1 <= |m[Idle]| <= 4
    ensures |m[Walk]| <= 8 && |m[Jump]| <= 3 && |m[Atack]| <= 3 && |m[Slide]| <= 4
  {
    map[Idle := IdleFrames(load, idleRetry),
        Walk := Kept(Attempts(WalkSprite, WALK_FILES, load)),
        Jump := Kept(Attempts(JumpSprite, JUMP_FILES, load)),
        Atack := Kept(Attempts(AtackSprite, ATACK_FILES, load)),
        Slide := Kept(SlideAttempts(load))]
  }

  /** When all four idle loads fail the idle list is the single retry result. */
  lemma IdleFallback(load: SpriteFile -> Frame, idleRetry: Frame)
    requires forall i :: 1 <= i <= IDLE_FILES ==> load(SpriteFile(IdleSprite, i)).None?
    ensures Animations(load, idleRetry)[Idle] == [idleRetry]
  {
    KeptEmpty(IdleAttempts(load));
  }

  /** When some idle load succeeds the retry is not made and the list holds only successful loads. */
  lemma IdleLoaded(load: SpriteFile -> Frame, idleRetry: Frame, i: nat)
    requires 1 <= i <= IDLE_FILES && load(SpriteFile(IdleSprite, i)).Some?
    ensures Animations(load, idleRetry)[Idle] == Kept(IdleAttempts(load))
    ensures forall f :: f in Animations(load, idleRetry)[Idle] ==> f.Some?
  {
    var rs := IdleAttempts(load);
    assert rs[i - 1].Some?;
    KeptEmpty(rs);
    KeptLoaded(rs);
  }

  /** The slide list starts with the pre-slide frame whenever that frame loaded. */
  lemma SlideStartsWithPreslide(load: SpriteFile -> Frame, idleRetry: Frame)
    requires load(SpriteFile(PreslideSprite, 1)).Some?
    ensures Animations(load, idleRetry)[Slide] ==
              [load(SpriteFile(PreslideSprite, 1))] + Kept(Attempts(SlideSprite, SLIDE_FILES, load))
  {
    KeptAppend([load(SpriteFile(PreslideSprite, 1))], Attempts(SlideSprite, SLIDE_FILES, load));
  }

  /** No list except a failed idle retry holds a None entry. */
  ghost predicate AllLoaded(animations: map<AnimState, seq<Frame>>) {
    forall s, f :: s in animations && f in animations[s] ==> f.Some?
  }

  /**
   * `__init__` raises when the first idle frame it shows is None: the list
   * `[None]` is non-empty, so `setPixmap` receives None and raises TypeError.
   * This happens only when the idle fallback failed too.
   */
  predicate StartupRaises(load: SpriteFile -> Frame, idleRetry: Frame) {
    Animations(load, idleRetry)[Idle][0].None?
  }

  lemma StartupRaisesIff(load: SpriteFile -> Frame, idleRetry: Frame)
    ensures StartupRaises(load, idleRetry) <==>
              (forall i :: 1 <= i <= IDLE_FILES ==> load(SpriteFile(IdleSprite, i)).None?) && idleRetry.None?
  {
    if forall i :: 1 <= i <= IDLE_FILES ==> load(SpriteFile(IdleSprite, i)).None? {
      IdleFallback(load, idleRetry);
    } else {
      var i :| 1 <= i <= IDLE_FILES && load(SpriteFile(IdleSprite, i)).Some?;
      IdleLoaded(load, idleRetry, i);
    }
  }

  /** A penguin that starts up has only loaded frames in every list. */
  lemma StartupLoaded(load: SpriteFile -> Frame, idleRetry: Frame)
    requires !StartupRaises(load, idleRetry)
    ensures AllLoaded(Animations(load, idleRetry))
  {
    var m := Animations(load, idleRetry);
    StartupRaisesIff(load, idleRetry);
    if forall i :: 1 <= i <= IDLE_FILES ==> load(SpriteFile(IdleSprite, i)).None? {
      IdleFallback(load, idleRetry);
    } else {
      var i :| 1 <= i <= IDLE_FILES && load(SpriteFile(IdleSprite, i)).Some?;
      IdleLoaded(load, idleRetry, i);
    }
    KeptLoaded(Attempts(WalkSprite, WALK_FILES, load));
    KeptLoaded(Attempts(JumpSprite, JUMP_FILES, load));
    KeptLoaded(Attempts(AtackSprite, ATACK_FILES, load));
    KeptLoaded(SlideAttempts(load));
    forall s: AnimState, f: Frame | s in m && f in m[s] ensures f.Some? {
      assert s == Idle || s == Walk || s == Jump || s == Atack || s == Slide;
    }
  }

  /** One of the `for` loops of `loadAnimations`: try frames 1..count and append the successes. */
  method LoadFrameSet(sprite: Sprite, count: nat, load: SpriteFile -> Frame) returns (frames: seq<Frame>)
    ensures frames == Kept(Attempts(sprite, count, load))
  {
    frames := [];
    for i := 1 to count + 1
      invariant frames == Kept(Attempts(sprite, i - 1, load))
    {
      var pix := load(SpriteFile(sprite, i));
      assert Attempts(sprite, i, load) == Attempts(sprite, i - 1, load) + [pix];
      assert Kept([pix]) == if pix.Some? then [pix] else [] by {
        assert [pix][1..] == [];
      }
      KeptAppend(Attempts(sprite, i - 1, load), [pix]);
      if pix.Some? {
        frames := frames + [pix];
      }
    }
  }

  /** The idle part of `loadAnimations`: the loop, then the retry when nothing loaded. */
  method LoadIdle(load: SpriteFile -> Frame, idleRetry: Frame) returns (idle: seq<Frame>)
    ensures idle == IdleFrames(load, idleRetry)
  {
    idle := LoadFrameSet(IdleSprite, IDLE_FILES, load);
    if idle == [] {
      idle := [idleRetry];
    }
  }

  /** The slide part of `loadAnimations`: the pre-slide frame if it loaded, then the slide loop. */
  method LoadSlide(load: SpriteFile -> Frame) returns (slide: seq<Frame>)
    ensures slide == Kept(SlideAttempts(load))
  {
    slide := [];
    var preSlide := load(SpriteFile(PreslideSprite, 1));
    if preSlide.Some? {
      slide := slide + [preSlide];
    }
    var sliding := LoadFrameSet(SlideSprite, SLIDE_FILES, load);
    slide := slide + sliding;
    assert [preSlide][1..] == [];
    KeptAppend([preSlide], Attempts(SlideSprite, SLIDE_FILES, load));
  }

  /** `loadAnimations` without the display side effects: build the five lists. */
  method LoadAnimations(load: SpriteFile -> Frame, idleRetry: Frame) returns (animations: map<AnimState, seq<Frame>>)
    ensures animations == Animations(load, idleRetry)
  {
    var idle := LoadIdle(load, idleRetry);
    var walk := LoadFrameSet(WalkSprite, WALK_FILES, load);
    var jump := LoadFrameSet(JumpSprite, JUMP_FILES, load);
    var atack := LoadFrameSet(AtackSprite, ATACK_FILES, load);
    var slide := LoadSlide(load);
    animations := map[Idle := idle, Walk := walk, Jump := jump, Atack := atack, Slide := slide];
  }
}
