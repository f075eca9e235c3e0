/** Resolution of the feature-test macros (chapter03/share/features.h, from the clean slate to
    `__USE_GNU`): a sequence of `#undef` and `#define` steps over an environment of macros.

    Of most macros only whether they are defined is ever looked at; those are booleans. The ones
    compared with a level carry an integer when defined. */
module Features {

  /** A macro compared with a level. */
  datatype Level = Undefined | Defined(value: int)

  // ----- macros a user or the compiler defines; the header rewrites some of them -----

  /** Fixed by the compiler or never rewritten: `__STRICT_ANSI__`, `_LOOSE_KERNEL_NAMES`,
      `__STDC_VERSION__`, `__cplusplus`, `__GXX_EXPERIMENTAL_CXX0X__`, `_FILE_OFFSET_BITS`. */
  datatype Fixed = Fixed(
    strictAnsi: bool,
    looseKernelNames: bool,
    stdcVersion: Level,
    cplusplus: Level,
    gxxExperimentalCxx0x: bool,
    fileOffsetBits: Level)

  /** `_ISOC95_SOURCE` to `_ISOC2X_SOURCE`. */
  datatype IsoSource = IsoSource(c95: bool, c99: bool, c11: bool, c2x: bool)

  /** `_POSIX_SOURCE`, `_POSIX_C_SOURCE`, `_REENTRANT` and `_THREAD_SAFE`. */
  datatype PosixSource = PosixSource(source: bool, level: Level, reentrant: bool, threadSafe: bool)

  /** `_XOPEN_SOURCE` and `_XOPEN_SOURCE_EXTENDED`. */
  datatype XopenSource = XopenSource(level: Level, extended: bool)

  /** `_GNU_SOURCE`, `_DEFAULT_SOURCE` and its aliases, `_LARGEFILE_SOURCE`, `_LARGEFILE64_SOURCE`
      and `_ATFILE_SOURCE`. */
  datatype OtherSource = OtherSource(
    gnu: bool, default: bool, bsd: bool, svid: bool, largefile: bool, largefile64: bool, atfile: bool)

  datatype User = User(fixed: Fixed, iso: IsoSource, posix: PosixSource, xopen: XopenSource, other: OtherSource)

  // ----- macros the header defines -----

  /** `__USE_ISOC11`, `__USE_ISOC99`, `__USE_ISOC95`, `__USE_ISOCXX11` and `__GLIBC_USE_ISOC2X`. */
  datatype IsoFlags = IsoFlags(c11: bool, c99: bool, c95: bool, cxx11: bool, c2x: Level)

  /** `__USE_POSIX`, `__USE_POSIX2`, `__USE_POSIX199309`, `__USE_POSIX199506` and
      `__USE_POSIX_IMPLICITLY`. */
  datatype PosixFlags = PosixFlags(posix: bool, posix2: bool, posix199309: bool, posix199506: bool, implicitly: bool)

  /** `__USE_XOPEN`, `__USE_XOPEN_EXTENDED`, `__USE_UNIX98`, `__USE_XOPEN2K`, `__USE_XOPEN2KXSI`,
      `__USE_XOPEN2K8` and `__USE_XOPEN2K8XSI`. */
  datatype XopenFlags = XopenFlags(
    xopen: bool, extended: bool, unix98: bool, xopen2k: bool, xopen2kxsi: bool, xopen2k8: bool, xopen2k8xsi: bool)

  /** `__USE_LARGEFILE`, `__USE_LARGEFILE64`, `__USE_FILE_OFFSET64`, `__USE_MISC`, `__USE_ATFILE`,
      `__USE_GNU` and `__KERNEL_STRICT_NAMES`. */
  datatype OtherFlags = OtherFlags(
    largefile: bool, largefile64: bool, fileOffset64: bool, misc: bool, atfile: bool, gnu: bool,
    kernelStrictNames: bool)

  datatype Flags = Flags(iso: IsoFlags, posix: PosixFlags, xopen: XopenFlags, other: OtherFlags)

  /** A macro environment. */
  datatype Env = Env(user: User, flags: Flags)

  predicate AtLeast(macro: Level, level: int) {
    macro.Defined? && macro.value >= level
  }

  /** `X - 0` in an `#if`: an undefined macro counts as 0. */
  function Minus0(macro: Level): int {
    if macro.Defined? then macro.value else 0
  }

  // ----- what resolution comes to, in terms of the user's macros -----

  /** None of the macros that choose a standard is defined. */
  predicate NothingChosen(u: User) {
    && !u.fixed.strictAnsi
    && !u.iso.c99 && !u.iso.c11 && !u.iso.c2x
    && !u.posix.source && u.posix.level.Undefined? && u.xopen.level.Undefined?
  }

  predicate ExplicitDefault(u: User) {
    u.other.default || u.other.bsd || u.other.svid || u.other.gnu
  }

  predicate Default(u: User) {
    ExplicitDefault(u) || NothingChosen(u)
  }

  predicate PosixChosen(u: User) {
    u.other.gnu || u.posix.source || u.posix.level.Defined?
  }

  predicate Threaded(u: User) {
    u.posix.reentrant || u.posix.threadSafe
  }

  function Xopen(u: User): Level {
    if u.other.gnu then Defined(700) else u.xopen.level
  }

  /** The POSIX level `_XOPEN_SOURCE` implies when no POSIX macro is defined. */
  function ImpliedLevel(xopen: Level): int {
    if xopen.Undefined? then 200809
    else if xopen.value < 500 then 2
    else if xopen.value < 600 then 199506
    else if xopen.value < 700 then 200112
    else 200809
  }

  /** The header chooses the level because the user chose none. */
  predicate Implied(u: User) {
    && !Default(u)
    && !PosixChosen(u)
    && (!u.fixed.strictAnsi || AtLeast(u.xopen.level, 500))
  }

  /** `_POSIX_C_SOURCE` before the thread macros are looked at. */
  function ChosenLevel(u: User): Level {
    if Default(u) then Defined(200809)
    else if Implied(u) then Defined(ImpliedLevel(u.xopen.level))
    else u.posix.level
  }

  predicate ThreadsRaise(u: User) {
    Threaded(u) && !AtLeast(ChosenLevel(u), 199506)
  }

  /** `_POSIX_C_SOURCE` in the end. */
  function PosixLevel(u: User): Level {
    if ThreadsRaise(u) then Defined(199506) else ChosenLevel(u)
  }

  predicate HasPosixSource(u: User) {
    u.posix.source || Default(u) || Implied(u) || ThreadsRaise(u)
  }

  predicate IsoC11(u: User) {
    u.other.gnu || u.iso.c2x || u.iso.c11
  }

  predicate IsoC99(u: User) {
    IsoC11(u) || u.iso.c99
  }

  predicate Cxx11(u: User) {
    u.fixed.cplusplus.Defined? && (u.fixed.cplusplus.value >= 201103 || u.fixed.gxxExperimentalCxx0x)
  }

  /** The user's macros as the sequence leaves them. */
  function ResolvedUser(u: User): User {
    var gnu := u.other.gnu;
    User(
      u.fixed,
      IsoSource(u.iso.c95 || gnu, u.iso.c99 || gnu, u.iso.c11 || gnu, u.iso.c2x || gnu),
      PosixSource(HasPosixSource(u), PosixLevel(u), u.posix.reentrant, u.posix.threadSafe),
      XopenSource(Xopen(u), u.xopen.extended || gnu),
      OtherSource(gnu, Default(u), u.other.bsd, u.other.svid,
                  u.other.largefile || AtLeast(Xopen(u), 500),
                  u.other.largefile64 || gnu,
                  u.other.atfile || gnu || AtLeast(PosixLevel(u), 200809)))
  }

  // The flags that follow from settled levels.

  /** ISO C, given what the language standard in use and the ISO C macros ask for: POSIX.1-2001 and
      XPG6 bring ISO C99 with them. */
  function IsoFlagsFor(asked: IsoFlags, posix: Level, xopen: Level): IsoFlags {
    var c99 := AtLeast(posix, 200112) || AtLeast(xopen, 600);
    asked.(c95 := asked.c95 || c99, c99 := asked.c99 || c99)
  }

  function PosixFlagsFor(posix: PosixSource, xopen: XopenSource, implicitly: bool): PosixFlags {
    PosixFlags(
      posix := posix.source || AtLeast(posix.level, 1) || xopen.level.Defined?,
      posix2 := AtLeast(posix.level, 2) || xopen.level.Defined?,
      posix199309 := AtLeast(posix.level, 199309),
      posix199506 := AtLeast(posix.level, 199506),
      implicitly := implicitly)
  }

  function XopenFlagsFor(posix: Level, xopen: XopenSource): XopenFlags {
    XopenFlags(
      xopen := xopen.level.Defined?,
      extended := AtLeast(xopen.level, 500) || (xopen.level.Defined? && xopen.extended),
      unix98 := AtLeast(xopen.level, 500),
      xopen2k := AtLeast(posix, 200112) || AtLeast(xopen.level, 600),
      xopen2kxsi := AtLeast(xopen.level, 600),
      xopen2k8 := AtLeast(posix, 200809) || AtLeast(xopen.level, 700),
      xopen2k8xsi := AtLeast(xopen.level, 700))
  }

  function OtherFlagsFor(fixed: Fixed, other: OtherSource): OtherFlags {
    OtherFlags(
      largefile := other.largefile,
      largefile64 := other.largefile64,
      fileOffset64 := fixed.fileOffsetBits == Defined(64),
      misc := other.default,
      atfile := other.atfile,
      gnu := other.gnu,
      kernelStrictNames := !fixed.looseKernelNames)
  }

  function AskedIso(u: User): IsoFlags {
    IsoFlags(
      c11 := IsoC11(u) || AtLeast(u.fixed.stdcVersion, 201112) || AtLeast(u.fixed.cplusplus, 201703),
      c99 := IsoC99(u) || AtLeast(u.fixed.stdcVersion, 199901) || Cxx11(u),
      c95 := IsoC99(u) || AtLeast(u.fixed.stdcVersion, 199409),
      cxx11 := Cxx11(u),
      c2x := Defined(if u.other.gnu || u.iso.c2x || AtLeast(u.fixed.stdcVersion, 201711) then 1 else 0))
  }

  /** Whether `__USE_POSIX_IMPLICITLY` ends defined. Unlike the other flags it is never undefined, so
      it stays if it was defined before. */
  predicate Implicitly(u: User, before: bool) {
    before || (Default(u) && !PosixChosen(u)) || Implied(u)
  }

  /** The flags in the end. */
  function ResolvedFlags(u: User, implicitBefore: bool): Flags {
    var v := ResolvedUser(u);
    Flags(
      IsoFlagsFor(AskedIso(u), v.posix.level, v.xopen.level),
      PosixFlagsFor(v.posix, v.xopen, Implicitly(u, implicitBefore)),
      XopenFlagsFor(v.posix.level, v.xopen),
      OtherFlagsFor(v.fixed, v.other))
  }

  function Resolved(e: Env): Env {
    Env(ResolvedUser(e.user), ResolvedFlags(e.user, e.flags.posix.implicitly))
  }

  // ----- the sequence itself -----

  /** A translation unit reading the header: the steps rewrite its macros in place. */
  class Preprocessor {
    var fixed: Fixed
    var iso: IsoSource
    var posix: PosixSource
    var xopen: XopenSource
    var other: OtherSource
    var useIso: IsoFlags
    var usePosix: PosixFlags
    var useXopen: XopenFlags
    var useOther: OtherFlags

    constructor (e: Env)
      ensures View() == e
    {
      var User(f, i, p, x, o) := e.user;
      fixed, iso, posix, xopen, other := f, i, p, x, o;
      var Flags(ui, up, ux, uo) := e.flags;
      useIso, usePosix, useXopen, useOther := ui, up, ux, uo;
    }

    ghost function UserView(): User
      reads this
    {
      User(fixed, iso, posix, xopen, other)
    }

    ghost function View(): Env
      reads this
    {
      Env(UserView(), Flags(useIso, usePosix, useXopen, useOther))
    }

    /** The whole sequence, from any environment. */
    method Resolve()
      modifies this
      ensures View() == Resolved(old(View()))
    {
      ghost var u := UserView();
      CleanSlate();
      Sources();
      SetFlags();
      assert UserView() == ResolvedUser(u);
    }

    /** From the point where the POSIX level is settled. */
    method SetFlags()
      requires usePosix == PosixFlags(false, false, false, false, usePosix.implicitly)
      requires useXopen == XopenFlags(false, false, false, false, false, false, false)
      requires useOther == OtherFlags(false, false, false, false, false, false, !fixed.looseKernelNames)
      modifies `useIso, `usePosix, `useXopen, `useOther, `other
      ensures other == old(other).(largefile := old(other).largefile || AtLeast(xopen.level, 500),
                                   atfile := old(other).atfile || AtLeast(posix.level, 200809))
      ensures useIso == IsoFlagsFor(old(useIso), posix.level, xopen.level)
      ensures usePosix == PosixFlagsFor(posix, xopen, old(usePosix).implicitly)
      ensures useXopen == XopenFlagsFor(posix.level, xopen)
      ensures useOther == OtherFlagsFor(fixed, other)
    {
      SetPosixFlags();
      SetPosix2001Flags();
      SetXopenFlags();
      SetXpg6Flags();
      SetOtherFlags();
    }

    /** Up to the point where the POSIX level is settled. */
    method Sources()
      requires useIso == IsoFlags(false, false, false, false, Undefined)
      requires usePosix == PosixFlags(false, false, false, false, usePosix.implicitly)
      modifies `iso, `posix, `xopen, `other, `useIso, `usePosix
      ensures iso == ResolvedUser(old(UserView())).iso
      ensures posix == ResolvedUser(old(UserView())).posix
      ensures xopen == ResolvedUser(old(UserView())).xopen
      ensures other == old(other).(default := Default(old(UserView())),
                                   largefile64 := old(other).largefile64 || other.gnu,
                                   atfile := old(other).atfile || other.gnu)
      ensures useIso == AskedIso(old(UserView()))
      ensures usePosix == PosixFlags(false, false, false, false, Implicitly(old(UserView()), old(usePosix).implicitly))
    {
      DefaultAndGnu();
      IsoC();
      ChooseLevel();
    }

    /** The clean slate, and the kernel name space. */
    method CleanSlate()
      modifies `useIso, `usePosix, `useXopen, `useOther
      ensures useIso == IsoFlags(false, false, false, false, Undefined)
      ensures usePosix == PosixFlags(false, false, false, false, old(usePosix).implicitly)
      ensures useXopen == XopenFlags(false, false, false, false, false, false, false)
      ensures useOther == OtherFlags(false, false, false, false, false, false, !fixed.looseKernelNames)
    {
      useIso := useIso.(c11 := false, c99 := false, c95 := false, cxx11 := false);
      usePosix := usePosix.(posix := false, posix2 := false, posix199309 := false, posix199506 := false);
      useXopen := useXopen.(xopen := false, extended := false, unix98 := false, xopen2k := false,
                            xopen2kxsi := false, xopen2k8 := false, xopen2k8xsi := false);
      useOther := useOther.(largefile := false, largefile64 := false, fileOffset64 := false, misc := false,
                            atfile := false, gnu := false);
      useOther := useOther.(kernelStrictNames := false);
      useIso := useIso.(c2x := Undefined);
      if !fixed.looseKernelNames {
        useOther := useOther.(kernelStrictNames := true);
      }
    }

    /** The deprecated aliases of `_DEFAULT_SOURCE`, everything `_GNU_SOURCE` turns on, and
        `_DEFAULT_SOURCE` when nothing else chooses a standard. */
    method DefaultAndGnu()
      modifies `iso, `posix, `xopen, `other
      ensures var gnu := other.gnu;
              && iso == (if gnu then IsoSource(true, true, true, true) else old(iso))
              && posix == (if gnu then old(posix).(source := true, level := Defined(200809)) else old(posix))
              && xopen == (if gnu then XopenSource(Defined(700), true) else old(xopen))
              && other == old(other).(default := Default(old(UserView())),
                                      largefile64 := old(other).largefile64 || gnu,
                                      atfile := old(other).atfile || gnu)
    {
      if (other.bsd || other.svid) && !other.default {
        other := other.(default := true);
      }
      if other.gnu {
        iso := iso.(c95 := true);
        iso := iso.(c99 := true);
        iso := iso.(c11 := true);
        iso := iso.(c2x := true);
        posix := posix.(source := true);
        posix := posix.(level := Defined(200809));
        xopen := xopen.(level := Defined(700));
        xopen := xopen.(extended := true);
        other := other.(largefile64 := true);
        other := other.(default := true);
        other := other.(atfile := true);
      }
      if other.default
         || (!fixed.strictAnsi
             && !iso.c99 && !iso.c11
             && !iso.c2x
             && !posix.source && posix.level.Undefined?
             && xopen.level.Undefined?) {
        other := other.(default := true);
      }
    }

    /** The ISO C flags. */
    method IsoC()
      requires useIso == IsoFlags(false, false, false, false, Undefined)
      modifies `useIso
      ensures useIso.c2x == Defined(if iso.c2x || AtLeast(fixed.stdcVersion, 201711) then 1 else 0)
      ensures useIso.c11 == (iso.c11 || iso.c2x || AtLeast(fixed.stdcVersion, 201112)
                             || AtLeast(fixed.cplusplus, 201703))
      ensures useIso.c99 == (iso.c99 || iso.c11 || iso.c2x || AtLeast(fixed.stdcVersion, 199901) || Cxx11(UserView()))
      ensures useIso.c95 == (iso.c99 || iso.c11 || iso.c2x || AtLeast(fixed.stdcVersion, 199409))
      ensures useIso.cxx11 == Cxx11(UserView())
    {
      if iso.c2x || (fixed.stdcVersion.Defined? && fixed.stdcVersion.value > 201710) {
        useIso := useIso.(c2x := Defined(1));
      } else {
        useIso := useIso.(c2x := Defined(0));
      }
      if iso.c11 || iso.c2x || (fixed.stdcVersion.Defined? && fixed.stdcVersion.value >= 201112) {
        useIso := useIso.(c11 := true);
      }
      if iso.c99 || iso.c11 || iso.c2x || (fixed.stdcVersion.Defined? && fixed.stdcVersion.value >= 199901) {
        useIso := useIso.(c99 := true);
      }
      if iso.c99 || iso.c11 || iso.c2x || (fixed.stdcVersion.Defined? && fixed.stdcVersion.value >= 199409) {
        useIso := useIso.(c95 := true);
      }
      if fixed.cplusplus.Defined? {
        if fixed.cplusplus.value >= 201703 {
          useIso := useIso.(c11 := true);
        }
        if fixed.cplusplus.value >= 201103 || fixed.gxxExperimentalCxx0x {
          useIso := useIso.(cxx11 := true);
          useIso := useIso.(c99 := true);
        }
      }
    }

    /** The POSIX level: by default, by implication from `_XOPEN_SOURCE`, and for threads. */
    method ChooseLevel()
      modifies `posix, `usePosix
      ensures var chosen := old(posix).source || old(posix).level.Defined?;
              var implied := !other.default && !chosen && (!fixed.strictAnsi || AtLeast(xopen.level, 500));
              var level :=
                if other.default then Defined(200809)
                else if implied then Defined(ImpliedLevel(xopen.level))
                else old(posix).level;
              var raise := (posix.reentrant || posix.threadSafe) && !AtLeast(level, 199506);
              && posix == old(posix).(source := old(posix).source || other.default || implied || raise,
                                      level := if raise then Defined(199506) else level)
              && usePosix == old(usePosix).(
                   implicitly := old(usePosix).implicitly || (other.default && !chosen) || implied)
    {
      if other.default {
        if !posix.source && posix.level.Undefined? {
          usePosix := usePosix.(implicitly := true);
        }
        posix := posix.(source := true);
        posix := posix.(level := Defined(200809));
      }
      if (!fixed.strictAnsi || (xopen.level.Defined? && Minus0(xopen.level) >= 500))
         && !posix.source && posix.level.Undefined? {
        posix := posix.(source := true);
        if xopen.level.Defined? && Minus0(xopen.level) < 500 {
          posix := posix.(level := Defined(2));
        } else if xopen.level.Defined? && Minus0(xopen.level) < 600 {
          posix := posix.(level := Defined(199506));
        } else if xopen.level.Defined? && Minus0(xopen.level) < 700 {
          posix := posix.(level := Defined(200112));
        } else {
          posix := posix.(level := Defined(200809));
        }
        usePosix := usePosix.(implicitly := true);
      }
      if (posix.level.Undefined? || Minus0(posix.level) < 199506) && (posix.reentrant || posix.threadSafe) {
        posix := posix.(source := true);
        posix := posix.(level := Defined(199506));
      }
    }

    /** The POSIX flags. */
    method SetPosixFlags()
      requires !usePosix.posix && !usePosix.posix2 && !usePosix.posix199309 && !usePosix.posix199506
      modifies `usePosix
      ensures usePosix == PosixFlags(
                posix.source || AtLeast(posix.level, 1) || xopen.level.Defined?,
                AtLeast(posix.level, 2) || xopen.level.Defined?,
                AtLeast(posix.level, 199309),
                AtLeast(posix.level, 199506),
                old(usePosix).implicitly)
    {
      if posix.source || (posix.level.Defined? && posix.level.value >= 1) || xopen.level.Defined? {
        usePosix := usePosix.(posix := true);
      }
      if (posix.level.Defined? && posix.level.value >= 2) || xopen.level.Defined? {
        usePosix := usePosix.(posix2 := true);
      }
      if posix.level.Defined? && Minus0(posix.level) >= 199309 {
        usePosix := usePosix.(posix199309 := true);
      }
      if posix.level.Defined? && Minus0(posix.level) >= 199506 {
        usePosix := usePosix.(posix199506 := true);
      }
    }

    /** The flags of POSIX.1-2001 and POSIX.1-2008. */
    method SetPosix2001Flags()
      requires !useXopen.xopen2k && !useXopen.xopen2k8
      modifies `useXopen, `useIso, `other
      ensures useXopen == old(useXopen).(xopen2k := AtLeast(posix.level, 200112),
                                         xopen2k8 := AtLeast(posix.level, 200809))
      ensures useIso == old(useIso).(c95 := old(useIso).c95 || AtLeast(posix.level, 200112),
                                     c99 := old(useIso).c99 || AtLeast(posix.level, 200112))
      ensures other == old(other).(atfile := old(other).atfile || AtLeast(posix.level, 200809))
    {
      if posix.level.Defined? && Minus0(posix.level) >= 200112 {
        useXopen := useXopen.(xopen2k := true);
        useIso := useIso.(c95 := true);
        useIso := useIso.(c99 := true);
      }
      if posix.level.Defined? && Minus0(posix.level) >= 200809 {
        useXopen := useXopen.(xopen2k8 := true);
        other := other.(atfile := true);
      }
    }

    /** The X/Open flags up to XPG5. */
    method SetXopenFlags()
      requires !useXopen.xopen && !useXopen.extended && !useXopen.unix98
      modifies `useXopen, `other
      ensures useXopen == old(useXopen).(
                xopen := xopen.level.Defined?,
                extended := AtLeast(xopen.level, 500) || (xopen.level.Defined? && xopen.extended),
                unix98 := AtLeast(xopen.level, 500))
      ensures other == old(other).(largefile := old(other).largefile || AtLeast(xopen.level, 500))
    {
      if xopen.level.Defined? {
        useXopen := useXopen.(xopen := true);
        if Minus0(xopen.level) >= 500 {
          useXopen := useXopen.(extended := true);
          useXopen := useXopen.(unix98 := true);
          other := other.(largefile := true);
        } else {
          if xopen.extended {
            useXopen := useXopen.(extended := true);
          }
        }
      }
    }

    /** The X/Open flags of XPG6 and XPG7. The header nests these tests inside those of XPG5. */
    method SetXpg6Flags()
      requires !useXopen.xopen2kxsi && !useXopen.xopen2k8xsi
      modifies `useXopen, `useIso
      ensures useXopen == old(useXopen).(
                xopen2k := old(useXopen).xopen2k || AtLeast(xopen.level, 600),
                xopen2kxsi := AtLeast(xopen.level, 600),
                xopen2k8 := old(useXopen).xopen2k8 || AtLeast(xopen.level, 700),
                xopen2k8xsi := AtLeast(xopen.level, 700))
      ensures useIso == old(useIso).(c95 := old(useIso).c95 || AtLeast(xopen.level, 600),
                                     c99 := old(useIso).c99 || AtLeast(xopen.level, 600))
    {
      if xopen.level.Defined? && Minus0(xopen.level) >= 600 {
        if Minus0(xopen.level) >= 700 {
          useXopen := useXopen.(xopen2k8 := true);
          useXopen := useXopen.(xopen2k8xsi := true);
        }
        useXopen := useXopen.(xopen2k := true);
        useXopen := useXopen.(xopen2kxsi := true);
        useIso := useIso.(c95 := true);
        useIso := useIso.(c99 := true);
      }
    }

    /** The flags that follow one macro each. */
    method SetOtherFlags()
      requires useOther == OtherFlags(false, false, false, false, false, false, !fixed.looseKernelNames)
      modifies `useOther
      ensures useOther == OtherFlagsFor(fixed, other)
    {
      if other.largefile {
        useOther := useOther.(largefile := true);
      }
      if other.largefile64 {
        useOther := useOther.(largefile64 := true);
      }
      if fixed.fileOffsetBits.Defined? && fixed.fileOffsetBits.value == 64 {
        useOther := useOther.(fileOffset64 := true);
      }
      if other.default {
        useOther := useOther.(misc := true);
      }
      if other.atfile {
        useOther := useOther.(atfile := true);
      }
      if other.gnu {
        useOther := useOther.(gnu := true);
      }
    }
  }
}
