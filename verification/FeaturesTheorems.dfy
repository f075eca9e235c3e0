/** What the header's comments promise of feature-test resolution, proved or refuted. */
module FeaturesTheorems {
  import opened Features

  /** The standards-level `__USE_*` macros of `f` are all defined in `g` too. */
  predicate Keeps(f: Flags, g: Flags) {
    && (f.iso.c11 ==> g.iso.c11) && (f.iso.c99 ==> g.iso.c99)
    && (f.iso.c95 ==> g.iso.c95) && (f.iso.cxx11 ==> g.iso.cxx11)
    && (f.posix.posix ==> g.posix.posix) && (f.posix.posix2 ==> g.posix.posix2)
    && (f.posix.posix199309 ==> g.posix.posix199309) && (f.posix.posix199506 ==> g.posix.posix199506)
    && (f.xopen.xopen ==> g.xopen.xopen) && (f.xopen.extended ==> g.xopen.extended)
    && (f.xopen.unix98 ==> g.xopen.unix98) && (f.xopen.xopen2k ==> g.xopen.xopen2k)
    && (f.xopen.xopen2kxsi ==> g.xopen.xopen2kxsi) && (f.xopen.xopen2k8 ==> g.xopen.xopen2k8)
    && (f.xopen.xopen2k8xsi ==> g.xopen.xopen2k8xsi)
    && (f.other.largefile ==> g.other.largefile) && (f.other.largefile64 ==> g.other.largefile64)
    && (f.other.fileOffset64 ==> g.other.fileOffset64) && (f.other.misc ==> g.other.misc)
    && (f.other.atfile ==> g.other.atfile) && (f.other.gnu ==> g.other.gnu)
  }

  predicate Raises(a: Level, b: Level) {
    a.Defined? ==> b.Defined? && a.value <= b.value
  }

  /** `v` defines every feature macro `u` does, at the same level or higher, under the same compiler. */
  predicate Extends(u: User, v: User) {
    && v.fixed == u.fixed.(strictAnsi := v.fixed.strictAnsi) && (u.fixed.strictAnsi ==> v.fixed.strictAnsi)
    && (u.iso.c95 ==> v.iso.c95) && (u.iso.c99 ==> v.iso.c99) && (u.iso.c11 ==> v.iso.c11) && (u.iso.c2x ==> v.iso.c2x)
    && (u.posix.source ==> v.posix.source) && Raises(u.posix.level, v.posix.level)
    && (u.posix.reentrant ==> v.posix.reentrant) && (u.posix.threadSafe ==> v.posix.threadSafe)
    && Raises(u.xopen.level, v.xopen.level) && (u.xopen.extended ==> v.xopen.extended)
    && (u.other.gnu ==> v.other.gnu) && (u.other.default ==> v.other.default)
    && (u.other.bsd ==> v.other.bsd) && (u.other.svid ==> v.other.svid)
    && (u.other.largefile ==> v.other.largefile) && (u.other.largefile64 ==> v.other.largefile64)
    && (u.other.atfile ==> v.other.atfile)
  }

  // ----- what defines each macro -----

  // These speak of the user's macros and of literal levels only, not of what resolution makes of them.

  /** The default set of features is asked for by name. */
  predicate AsksDefault(u: User) {
    u.other.default || u.other.bsd || u.other.svid || u.other.gnu
  }

  predicate AsksThreads(u: User) {
    u.posix.reentrant || u.posix.threadSafe
  }

  /** Neither `_POSIX_SOURCE` nor `_POSIX_C_SOURCE` is defined. */
  predicate NoPosix(u: User) {
    !u.posix.source && u.posix.level.Undefined?
  }

  /** No POSIX or X/Open macro is defined, nor `__STRICT_ANSI__`, so that the newest POSIX is in force. */
  predicate Unstated(u: User) {
    NoPosix(u) && u.xopen.level.Undefined? && !u.fixed.strictAnsi
  }

  /** The POSIX macros, from the user's own. A level is in force because the user asks for it or for one
      above it, or for the default set, or says nothing, or because `_XOPEN_SOURCE` stands for it where
      no POSIX macro is defined: 500 for POSIX.1c-1995, 600 for POSIX.1-2001, 700 for POSIX.1-2008. */
  lemma PosixDefinedWhen(e: Env)
    ensures var u, f := e.user, Resolved(e).flags;
            && (f.posix.posix <==>
                  AsksDefault(u) || AsksThreads(u) || u.posix.source || AtLeast(u.posix.level, 1)
                  || u.xopen.level.Defined? || Unstated(u))
            && (f.posix.posix2 <==>
                  AsksDefault(u) || AsksThreads(u) || AtLeast(u.posix.level, 2)
                  || u.xopen.level.Defined? || Unstated(u))
            && (f.posix.posix199309 <==>
                  AsksDefault(u) || AsksThreads(u) || AtLeast(u.posix.level, 199309)
                  || (NoPosix(u) && AtLeast(u.xopen.level, 500)) || Unstated(u))
            && (f.posix.posix199506 <==>
                  AsksDefault(u) || AsksThreads(u) || AtLeast(u.posix.level, 199506)
                  || (NoPosix(u) && AtLeast(u.xopen.level, 500)) || Unstated(u))
            && (f.xopen.xopen2k <==>
                  AsksDefault(u) || AtLeast(u.posix.level, 200112) || AtLeast(u.xopen.level, 600) || Unstated(u))
            && (f.xopen.xopen2k8 <==>
                  AsksDefault(u) || AtLeast(u.posix.level, 200809) || AtLeast(u.xopen.level, 700) || Unstated(u))
            && (f.posix.implicitly <==>
                  || e.flags.posix.implicitly
                  || (NoPosix(u) && !u.other.gnu
                      && (AsksDefault(u) || !u.fixed.strictAnsi || AtLeast(u.xopen.level, 500))))
  {
  }

  /** The X/Open macros. */
  lemma XopenDefinedWhen(e: Env)
    ensures var u, f := e.user, Resolved(e).flags;
            && (f.xopen.xopen <==> u.other.gnu || u.xopen.level.Defined?)
            && (f.xopen.extended <==>
                  u.other.gnu || AtLeast(u.xopen.level, 500) || (u.xopen.level.Defined? && u.xopen.extended))
            && (f.xopen.unix98 <==> u.other.gnu || AtLeast(u.xopen.level, 500))
            && (f.xopen.xopen2kxsi <==> u.other.gnu || AtLeast(u.xopen.level, 600))
            && (f.xopen.xopen2k8xsi <==> u.other.gnu || AtLeast(u.xopen.level, 700))
  {
  }

  /** The ISO C macros, from the user's, the compiler's, and POSIX.1-2001 or XPG6 if in force. */
  lemma IsoDefinedWhen(e: Env)
    ensures var u, f := e.user, Resolved(e).flags;
            var c, cxx := u.fixed.stdcVersion, u.fixed.cplusplus;
            && (f.iso.c2x == Defined(1) <==> u.other.gnu || u.iso.c2x || AtLeast(c, 201711))
            && (f.iso.c2x == Defined(0) <==> !u.other.gnu && !u.iso.c2x && !AtLeast(c, 201711))
            && (f.iso.c11 <==> u.other.gnu || u.iso.c2x || u.iso.c11 || AtLeast(c, 201112) || AtLeast(cxx, 201703))
            && (f.iso.cxx11 <==> AtLeast(cxx, 201103) || (cxx.Defined? && u.fixed.gxxExperimentalCxx0x))
            && (f.iso.c99 <==>
                  || u.other.gnu || u.iso.c2x || u.iso.c11 || u.iso.c99 || AtLeast(c, 199901)
                  || AtLeast(cxx, 201103) || (cxx.Defined? && u.fixed.gxxExperimentalCxx0x)
                  || f.xopen.xopen2k)
            && (f.iso.c95 <==>
                  || u.other.gnu || u.iso.c2x || u.iso.c11 || u.iso.c99 || AtLeast(c, 199409)
                  || f.xopen.xopen2k)
  {
  }

  /** The others. The default set is in force if it is asked for or nothing at all is. */
  lemma OthersDefinedWhen(e: Env)
    ensures var u, f := e.user, Resolved(e).flags;
            && (f.other.misc <==>
                  || AsksDefault(u)
                  || (Unstated(u) && !u.iso.c99 && !u.iso.c11 && !u.iso.c2x))
            && (f.other.atfile <==>
                  || AsksDefault(u) || u.other.atfile || AtLeast(u.posix.level, 200809)
                  || (NoPosix(u) && AtLeast(u.xopen.level, 700)) || Unstated(u))
            && (f.other.largefile <==> u.other.gnu || u.other.largefile || AtLeast(u.xopen.level, 500))
            && (f.other.largefile64 <==> u.other.gnu || u.other.largefile64)
            && (f.other.fileOffset64 <==> u.fixed.fileOffsetBits == Defined(64))
            && (f.other.gnu <==> u.other.gnu)
            && (f.other.kernelStrictNames <==> !u.fixed.looseKernelNames)
  {
  }

  /** What `_POSIX_C_SOURCE` is in the end. The user's own level stands unless the default set is asked
      for or threads need more; if there is none, `_XOPEN_SOURCE` decides, and without that the newest
      POSIX is meant, except under `__STRICT_ANSI__`. */
  lemma LevelInTheEnd(e: Env)
    ensures var u, level := e.user, Resolved(e).user.posix.level;
            var x := u.xopen.level;
            && (AsksDefault(u) || Unstated(u) ==> level == Defined(200809))
            && (!AsksDefault(u) && NoPosix(u) && AtLeast(x, 500) ==>
                  level == Defined(if x.value < 600 then 199506 else if x.value < 700 then 200112 else 200809))
            && (!AsksDefault(u) && NoPosix(u) && !AtLeast(x, 500) && !Unstated(u) ==>
                  level == if AsksThreads(u) then Defined(199506)
                           else if u.fixed.strictAnsi then Undefined else Defined(2))
            && (!AsksDefault(u) && !NoPosix(u) ==>
                  level == if AsksThreads(u) && !AtLeast(u.posix.level, 199506) then Defined(199506)
                           else u.posix.level)
  {
  }

  /** The user's other macros in the end: nothing is taken away, `_GNU_SOURCE` defines all of them, and
      what a level implies is defined. */
  lemma SourcesInTheEnd(e: Env)
    ensures var u, v, f := e.user, Resolved(e).user, Resolved(e).flags;
            && v.fixed == u.fixed
            && v.iso == (if u.other.gnu then IsoSource(true, true, true, true) else u.iso)
            && v.xopen == (if u.other.gnu then XopenSource(Defined(700), true) else u.xopen)
            && v.posix.reentrant == u.posix.reentrant && v.posix.threadSafe == u.posix.threadSafe
            && (v.posix.source <==>
                  || u.posix.source || AsksDefault(u)
                  || (NoPosix(u) && (!u.fixed.strictAnsi || AtLeast(u.xopen.level, 500)))
                  || (AsksThreads(u) && !AtLeast(u.posix.level, 199506)))
            && v.other == OtherSource(u.other.gnu, f.other.misc, u.other.bsd, u.other.svid,
                                      f.other.largefile, f.other.largefile64, f.other.atfile)
  {
  }

  /** A user who defines nothing, with the compiler's macros as given. */
  function Nothing(fixed: Fixed): User {
    User(fixed, IsoSource(false, false, false, false), PosixSource(false, Undefined, false, false),
         XopenSource(Undefined, false), OtherSource(false, false, false, false, false, false, false))
  }

  /** `_XOPEN_SOURCE` alone: 500 is Single Unix, 600 its sixth revision and 700 its seventh, each with
      the POSIX of its time. */
  lemma XopenAlone(fixed: Fixed, x: int, before: bool)
    ensures var f := ResolvedFlags(Nothing(fixed).(xopen := XopenSource(Defined(x), false)), before);
            && f.xopen.xopen && f.posix.posix2 && !f.other.misc
            && (f.xopen.unix98 <==> x >= 500)
            && (f.posix.posix199309 <==> x >= 500) && (f.posix.posix199506 <==> x >= 500)
            && (f.xopen.xopen2k <==> x >= 600) && (f.xopen.xopen2kxsi <==> x >= 600)
            && (f.xopen.xopen2k8 <==> x >= 700) && (f.xopen.xopen2k8xsi <==> x >= 700)
            && (f.other.atfile <==> x >= 700)
  {
  }

  /** `_POSIX_C_SOURCE` alone, under `__STRICT_ANSI__` or not. */
  lemma PosixAlone(fixed: Fixed, level: int, before: bool)
    ensures var f := ResolvedFlags(Nothing(fixed).(posix := PosixSource(false, Defined(level), false, false)), before);
            && !f.xopen.xopen && !f.xopen.unix98 && !f.other.misc && !f.other.largefile
            && (f.posix.posix <==> level >= 1)
            && (f.posix.posix2 <==> level >= 2)
            && (f.posix.posix199309 <==> level >= 199309)
            && (f.posix.posix199506 <==> level >= 199506)
            && (f.xopen.xopen2k <==> level >= 200112)
            && (f.xopen.xopen2k8 <==> level >= 200809) && (f.other.atfile <==> level >= 200809)
  {
  }

  /** A thread macro alone, under `__STRICT_ANSI__`. */
  lemma ThreadsAlone(fixed: Fixed, reentrant: bool, threadSafe: bool, before: bool)
    requires fixed.strictAnsi && (reentrant || threadSafe)
    ensures var e := Nothing(fixed).(posix := PosixSource(false, Undefined, reentrant, threadSafe));
            var f := ResolvedFlags(e, before);
            && f.posix == PosixFlags(true, true, true, true, before)
            && f.xopen == XopenFlags(false, false, false, false, false, false, false)
            && !f.other.misc && !f.other.atfile && ResolvedUser(e).posix.level == Defined(199506)
  {
  }

  /** `_GNU_SOURCE` turns everything on, whatever else is defined. */
  lemma GnuTurnsAllOn(u: User, before: bool)
    requires u.other.gnu
    ensures var f := ResolvedFlags(u, before);
            && f.iso.c11 && f.iso.c99 && f.iso.c95 && f.iso.c2x == Defined(1)
            && f.posix == PosixFlags(true, true, true, true, before)
            && f.xopen == XopenFlags(true, true, true, true, true, true, true)
            && f.other == OtherFlags(true, true, u.fixed.fileOffsetBits == Defined(64), true, true, true,
                                     !u.fixed.looseKernelNames)
  {
  }

  /** The user's macros with the thread macros besides. */
  function WithThreads(u: User, reentrant: bool, threadSafe: bool): User {
    u.(posix := u.posix.(reentrant := u.posix.reentrant || reentrant, threadSafe := u.posix.threadSafe || threadSafe))
  }

  lemma ThreadsOnlyRaise(u: User, reentrant: bool, threadSafe: bool)
    ensures var v := WithThreads(u, reentrant, threadSafe);
            && Default(v) == Default(u) && Implied(v) == Implied(u) && Xopen(v) == Xopen(u)
            && Raises(PosixLevel(u), PosixLevel(v)) && (HasPosixSource(u) ==> HasPosixSource(v))
  {
  }

  /** Defining `_REENTRANT` or `_THREAD_SAFE` never lowers the POSIX level and takes no flag away. */
  lemma ThreadsNeverLower(u: User, reentrant: bool, threadSafe: bool, before: bool)
    ensures var v := WithThreads(u, reentrant, threadSafe);
            Raises(PosixLevel(u), PosixLevel(v)) && Keeps(ResolvedFlags(u, before), ResolvedFlags(v, before))
  {
    var v := WithThreads(u, reentrant, threadSafe);
    ThreadsOnlyRaise(u, reentrant, threadSafe);
    LevelsGiveFlags(u, v, before);
  }

  /** The flags but for `__USE_POSIX_IMPLICITLY`, which only says how the level was come by. */
  predicate SameFeatures(f: Flags, g: Flags) {
    f.(posix := f.posix.(implicitly := g.posix.implicitly)) == g
  }

  /** Defining a thread macro is documented as equivalent to `_POSIX_C_SOURCE=199506L`. Where that is
      undefined and there is no thread macro yet, the two come to the same features exactly if the level
      makes no difference, or a POSIX macro or `__STRICT_ANSI__` keeps the header from choosing a newer
      one, or the one `_XOPEN_SOURCE` stands for brings nothing that it does not bring itself. */
  lemma ThreadsAreALevel(u: User, reentrant: bool, threadSafe: bool, before: bool)
    requires (reentrant || threadSafe) && !AsksThreads(u) && u.posix.level.Undefined?
    ensures SameFeatures(ResolvedFlags(WithThreads(u, reentrant, threadSafe), before),
                         ResolvedFlags(u.(posix := u.posix.(level := Defined(199506))), before))
       <==> || AsksDefault(u) || u.posix.source
            || (u.xopen.level.Undefined? && u.fixed.strictAnsi)
            || (u.xopen.level.Defined? && (u.xopen.level.value < 700 || u.other.atfile))
  {
  }

  /** Flags follow from what is asked of ISO C and from the settled levels. */
  lemma LevelsGiveFlags(u: User, v: User, before: bool)
    requires Raises(Xopen(u), Xopen(v)) || AtLeast(Xopen(v), 700)
    requires Raises(PosixLevel(u), PosixLevel(v)) || AtLeast(PosixLevel(v), 200809)
    requires HasPosixSource(u) ==> HasPosixSource(v)
    requires Default(u) ==> Default(v)
    requires AtLeast(PosixLevel(u), 200809) ==> AtLeast(PosixLevel(v), 200809)
    requires u.xopen.extended ==> v.xopen.extended
    requires v.fixed == u.fixed.(strictAnsi := v.fixed.strictAnsi)
    requires (u.iso.c99 ==> v.iso.c99) && (u.iso.c11 ==> v.iso.c11) && (u.iso.c2x ==> v.iso.c2x)
    requires (u.other.gnu ==> v.other.gnu) && (u.other.largefile ==> v.other.largefile)
    requires (u.other.largefile64 ==> v.other.largefile64) && (u.other.atfile ==> v.other.atfile)
    ensures Keeps(ResolvedFlags(u, before), ResolvedFlags(v, before))
  {
  }

  lemma SettledTwice(u: User)
    ensures var v := ResolvedUser(u);
            && Default(v) == Default(u) && Xopen(v) == Xopen(u) && PosixLevel(v) == PosixLevel(u)
            && HasPosixSource(v) == HasPosixSource(u) && (Implied(v) ==> Implied(u))
            && AskedIso(v) == AskedIso(u)
  {
  }

  /** Resolving twice is resolving once, for the user's macros as much as for the flags. */
  lemma ResolvedTwice(e: Env)
    ensures Resolved(Resolved(e)) == Resolved(e)
  {
    SettledTwice(e.user);
  }

  /** The flags imply one another as the standards do, whatever levels are asked for. */
  lemma FlagsImply(u: User, before: bool)
    ensures var f := ResolvedFlags(u, before);
            && (f.xopen.xopen2k8 ==> f.xopen.xopen2k)
            && (f.xopen.xopen2k ==> f.posix.posix && f.iso.c99)
            && (f.posix.posix199506 ==> f.posix.posix199309)
            && (f.posix.posix199309 ==> f.posix.posix2)
            && (f.posix.posix2 ==> f.posix.posix)
            && (f.xopen.xopen2k8xsi ==> f.xopen.xopen2k8 && f.xopen.xopen2kxsi)
            && (f.xopen.xopen2kxsi ==> f.xopen.xopen2k && f.xopen.unix98)
            && (f.xopen.unix98 ==> f.xopen.extended && f.other.largefile)
            && (f.xopen.extended ==> f.xopen.xopen)
            && (f.xopen.xopen ==> f.posix.posix2)
  {
  }

  /** The chain stops there: XPG7 can be in force without the earlier thread interfaces of POSIX,
      exactly when `_XOPEN_SOURCE` asks for it and the POSIX level is chosen below 199506. */
  lemma Xpg7WithoutThreads(u: User, before: bool)
    ensures var f := ResolvedFlags(u, before);
            f.xopen.xopen2k8 && !f.posix.posix199506 <==>
            !AsksDefault(u) && AtLeast(u.xopen.level, 700) && !NoPosix(u)
            && !AsksThreads(u) && !AtLeast(u.posix.level, 199506)
  {
  }

  // ----- accumulation -----

  /** When the settings of a user accumulate. It is enough to ask for the default set of features, or
      to choose a POSIX level, or to leave it undefined under `__STRICT_ANSI__`. Where the header has
      to imply a level, `_XOPEN_SOURCE` must be what it is implied from, and what the level brings
      must follow from other macros as well. */
  predicate Accumulates(u: User) {
    AsksDefault(u)
    || (!NothingChosen(u) && !Implied(u))
    || (Implied(u) && u.xopen.level.Defined? &&
        (u.xopen.level.value < 500 || (AsksThreads(u) && (u.xopen.level.value < 700 || u.other.atfile))))
  }

  lemma LevelsRise(u: User, v: User)
    requires Accumulates(u) && Extends(u, v) && !Implied(u)
    ensures Raises(Xopen(u), Xopen(v)) || AtLeast(Xopen(v), 700)
    ensures Raises(PosixLevel(u), PosixLevel(v)) || AtLeast(PosixLevel(v), 200809)
  {
  }

  lemma AccumulatesKeeps(u: User, v: User, before: bool)
    requires Accumulates(u) && Extends(u, v)
    ensures Keeps(ResolvedFlags(u, before), ResolvedFlags(v, before))
  {
    if !Implied(u) { LevelsRise(u, v); }
  }

  /** The user's macros with `_POSIX_SOURCE` besides: the step that loses flags, if any does. */
  function WithPosixSource(u: User): User {
    u.(posix := u.posix.(source := true))
  }

  lemma OtherwiseLoses(u: User, before: bool)
    requires !Accumulates(u)
    ensures Extends(u, WithPosixSource(u))
    ensures !Keeps(ResolvedFlags(u, before), ResolvedFlags(WithPosixSource(u), before))
  {
  }

  /** Defining several of the macros is meant to add up, and does not always. The settings of `u`
      accumulate, so that no way of defining more macros or raising levels takes a flag away, exactly
      when `Accumulates(u)`. */
  lemma AccumulationHolds(u: User, before: bool)
    ensures Accumulates(u) <==>
            forall v :: Extends(u, v) ==> Keeps(ResolvedFlags(u, before), ResolvedFlags(v, before))
  {
    if Accumulates(u) {
      forall v | Extends(u, v)
        ensures Keeps(ResolvedFlags(u, before), ResolvedFlags(v, before))
      {
        AccumulatesKeeps(u, v, before);
      }
    } else {
      OtherwiseLoses(u, before);
    }
  }

  /** With `_DEFAULT_SOURCE` nothing is lost by asking for more. */
  lemma DefaultAccumulates(u: User, v: User, before: bool)
    requires u.other.default && Extends(u, v)
    ensures Keeps(ResolvedFlags(u, before), ResolvedFlags(v, before))
    ensures Raises(PosixLevel(u), PosixLevel(v))
  {
    AccumulatesKeeps(u, v, before);
  }

  /** A user who defines `_ISOC99_SOURCE` alone gets POSIX.1-2008; adding `_POSIX_SOURCE`, which asks
      for less, takes it away. */
  lemma AccumulationCanFail(before: bool)
    ensures var u := User(
              Fixed(false, false, Undefined, Undefined, false, Undefined),
              IsoSource(false, true, false, false),
              PosixSource(false, Undefined, false, false),
              XopenSource(Undefined, false),
              OtherSource(false, false, false, false, false, false, false));
            && ResolvedFlags(u, before).xopen.xopen2k8
            && Extends(u, WithPosixSource(u))
            && !ResolvedFlags(WithPosixSource(u), before).xopen.xopen2k8
            && !ResolvedFlags(WithPosixSource(u), before).posix.posix2
  {
  }
}
