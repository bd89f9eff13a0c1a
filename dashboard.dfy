/**
 * The discrete state of the `SalahApp` page component (`pages/index.js`): the
 * fields it keeps with `useState`, the handlers that change them, and the pure
 * derivations the prayers and calendar views render from them.
 *
 * The astronomy library's results (prayer times, Qibla bearing, the name of the
 * next prayer), the Hijri formatter and the clock are inputs to this model.
 */
module Dashboard {
  import opened Common

  /** The four screens the bottom navigation switches between. */
  datatype View = Prayers | Calendar | Tools | Qibla

  datatype Prayer = Fajr | Sunrise | Dhuhr | Asr | Maghrib | Isha

  /** The six rows of the prayers view, in display order. */
  const Rows: seq<Prayer> := [Fajr, Sunrise, Dhuhr, Asr, Maghrib, Isha]

  /** A point in time, in milliseconds since the epoch. */
  type Instant = int

  /** The astronomy library's `PrayerTimes` object: one instant per prayer. */
  datatype PrayerTimes = PrayerTimes(fajr: Instant, sunrise: Instant, dhuhr: Instant,
                                     asr: Instant, maghrib: Instant, isha: Instant)

  /** The `data` state record. `next` is the library's name for the next prayer. */
  datatype PrayerData = PrayerData(times: Option<PrayerTimes>, qibla: real, city: string, next: string)

  /** The city the page always shows. */
  const DefaultCity: string := "Jeddah"

  /** The text shown for a prayer time that is not known. */
  const Placeholder: string := "--:--"

  /** A captured `beforeinstallprompt` event; `id` tells two events apart. */
  datatype InstallEvent = InstallEvent(id: nat)

  /** The `outcome` of the install prompt's `userChoice`. */
  datatype UserChoice = Accepted | Dismissed

  /** What a click on the install bar did. */
  datatype InstallAction = ShowedInstructions | Prompted(event: InstallEvent)

  /**
   * How the platform offers orientation access: a `requestPermission` function
   * and the string its promise resolves to, or no such function at all.
   */
  datatype PermissionApi = RequestPermission(result: string) | NoRequestPermission

  /**
   * The two `deviceorientation` listeners `startCompass` can register: the one
   * registered after a granted request prefers `webkitCompassHeading`; the
   * fallback one only uses `alpha`.
   */
  datatype Listener = CompassListener | AlphaListener

  /** One `deviceorientation` event; `None` stands for a null or missing reading. */
  datatype Orientation = Orientation(alpha: Option<real>, webkitCompassHeading: Option<real>)

  // ---------------------------------------------------------------------------
  // Prayer rows

  /** `String.prototype.toLowerCase` on one character of the (ASCII) row names. */
  function LowerChar(c: char): char
  {
    if 'A' <= c <= 'Z' then (c as int + 32) as char else c
  }

  function Lower(s: string): (r: string)
    ensures |r| == |s|
  {
    seq(|s|, i requires 0 <= i < |s| => LowerChar(s[i]))
  }

  /** The label a row shows. */
  function Label(p: Prayer): string
  {
    match p
    case Fajr => "Fajr"
    case Sunrise => "Sunrise"
    case Dhuhr => "Dhuhr"
    case Asr => "Asr"
    case Maghrib => "Maghrib"
    case Isha => "Isha"
  }

  /** The lower-cased label: the property name in `PrayerTimes` and the value `next` is compared to. */
  function Key(p: Prayer): string
  {
    Lower(Label(p))
  }

  /** The `PrayerTimes` property a row reads. */
  function TimeOf(t: PrayerTimes, p: Prayer): Instant
  {
    match p
    case Fajr => t.fajr
    case Sunrise => t.sunrise
    case Dhuhr => t.dhuhr
    case Asr => t.asr
    case Maghrib => t.maghrib
    case Isha => t.isha
  }

  /** The lower-cased labels are the library's prayer names. */
  lemma KeysAreLibraryNames()
    ensures Key(Fajr) == "fajr" && Key(Sunrise) == "sunrise" && Key(Dhuhr) == "dhuhr"
    ensures Key(Asr) == "asr" && Key(Maghrib) == "maghrib" && Key(Isha) == "isha"
  {
  }

  /** A row is highlighted when `data.next` equals its lower-cased label. */
  predicate IsHighlighted(next: string, p: Prayer)
  {
    next == Key(p)
  }

  /**
   * The time text of a row: the formatted instant, or the placeholder when there
   * are no times yet or the formatter gives the empty string. `format` stands for
   * `toLocaleTimeString` with two-digit hours and minutes.
   */
  function RowTime(times: Option<PrayerTimes>, p: Prayer, format: Instant -> string): (r: string)
    ensures r != ""
    ensures times.None? ==> r == Placeholder
    ensures times.Some? && format(TimeOf(times.value, p)) != "" ==> r == format(TimeOf(times.value, p))
  {
    match times
    case None => Placeholder
    case Some(t) =>
      var text := format(TimeOf(t, p));
      if text == "" then Placeholder else text
  }

  /** One rendered row of the prayers view. */
  datatype Row = Row(name: string, time: string, highlighted: bool)

  /** The six rows of the prayers view, rendered from the `data` record. */
  function PrayerRows(data: PrayerData, format: Instant -> string): (rows: seq<Row>)
    ensures |rows| == |Rows|
    ensures forall i :: 0 <= i < |rows| ==>
      && rows[i].name == Label(Rows[i])
      && rows[i].time == RowTime(data.times, Rows[i], format)
      && (rows[i].highlighted <==> data.next == Key(Rows[i]))
  {
    seq(|Rows|, i requires 0 <= i < |Rows| =>
      Row(Label(Rows[i]), RowTime(data.times, Rows[i], format), IsHighlighted(data.next, Rows[i])))
  }

  /**
   * At most one row is highlighted, and it is the row whose lower-cased label
   * `next` is; a `next` that names no row (the initial "", or "none") lights none.
   */
  lemma AtMostOneHighlighted(data: PrayerData, format: Instant -> string)
    ensures forall i, j :: 0 <= i < j < |Rows| ==>
      !(PrayerRows(data, format)[i].highlighted && PrayerRows(data, format)[j].highlighted)
    ensures forall i :: 0 <= i < |Rows| ==>
      (PrayerRows(data, format)[i].highlighted <==> data.next == Key(Rows[i]))
    ensures data.next !in {"fajr", "sunrise", "dhuhr", "asr", "maghrib", "isha"} ==>
      forall i :: 0 <= i < |Rows| ==> !PrayerRows(data, format)[i].highlighted
  {
    KeysAreLibraryNames();
  }

  /** Without a location fix every one of the six rows shows "--:--". */
  lemma NoFixShowsPlaceholders(data: PrayerData, format: Instant -> string)
    requires data.times.None?
    ensures forall i :: 0 <= i < |Rows| ==> PrayerRows(data, format)[i].time == Placeholder
  {
  }

  // ---------------------------------------------------------------------------
  // Calendar

  /** The number of cells the calendar view always renders. */
  const CalendarCells: nat := 30

  /** One cell of the calendar grid: its day, the Hijri day shown in it, and the today mark. */
  datatype DayCell = DayCell(day: int, hijriDay: string, isToday: bool)

  /** The day number of day 1 of the month that contains `date`, its `dayOfMonth`-th day. */
  function FirstOfMonth(date: int, dayOfMonth: nat): (first: int)
    requires dayOfMonth >= 1
    ensures date - first == dayOfMonth - 1
  {
    date - (dayOfMonth - 1)
  }

  /**
   * Counting back from `calDate` by its day of the month less one lands on day 1
   * of its month, in any calendar where the day of the month goes up by one from
   * each day to the next or starts again at 1.
   */
  lemma {:induction false} FirstOfMonthIsDayOne(calDate: int, dom: int -> int)
    requires forall d :: dom(d) >= 1 && (dom(d + 1) == dom(d) + 1 || dom(d + 1) == 1)
    ensures dom(FirstOfMonth(calDate, dom(calDate))) == 1
    decreases dom(calDate)
  {
    if dom(calDate) > 1 {
      assert dom(calDate - 1) + 1 == dom(calDate);
      FirstOfMonthIsDayOne(calDate - 1, dom);
    }
  }

  /**
   * `renderCalendarDays`: thirty cells for the consecutive days from day 1 of the
   * shown month, whatever the month's length; a cell is marked today exactly when
   * its day is `today`. Days are abstract day numbers; `dom` gives each day's
   * day of the month (`getDate`), and `hijriDay` stands for the day part of the
   * Hijri formatter.
   */
  method RenderCalendarDays(calDate: int, dom: int -> int, today: int, hijriDay: int -> string)
    returns (cells: seq<DayCell>)
    requires forall d :: dom(d) >= 1 && (dom(d + 1) == dom(d) + 1 || dom(d + 1) == 1)
    ensures |cells| == CalendarCells
    ensures dom(cells[0].day) == 1
    ensures forall i :: 0 <= i < |cells| ==>
      cells[i].day == FirstOfMonth(calDate, dom(calDate)) + i && cells[i].hijriDay == hijriDay(cells[i].day)
    ensures forall i :: 0 <= i < |cells| ==> (cells[i].isToday <==> cells[i].day == today)
    ensures forall i, j :: 0 <= i < j < |cells| ==> !(cells[i].isToday && cells[j].isToday)
  {
    var first := FirstOfMonth(calDate, dom(calDate));
    FirstOfMonthIsDayOne(calDate, dom);
    cells := [];
    for i := 0 to CalendarCells
      invariant |cells| == i
      invariant forall k :: 0 <= k < i ==> cells[k] == DayCell(first + k, hijriDay(first + k), first + k == today)
    {
      var d := first + i;
      cells := cells + [DayCell(d, hijriDay(d), d == today)];
    }
  }

  // ---------------------------------------------------------------------------
  // Orientation

  /** JavaScript truthiness of an optional number (NaN is not modelled). */
  predicate Truthy(x: Option<real>)
  {
    x.Some? && x.value != 0.0
  }

  /** `360 - alpha`, where a null `alpha` converts to 0. */
  function InvertedAlpha(alpha: Option<real>): real
  {
    360.0 - (if alpha.Some? then alpha.value else 0.0)
  }

  /** The heading a listener sets for one orientation event. */
  function HeadingFor(l: Listener, e: Orientation): (h: real)
    ensures l == CompassListener && Truthy(e.webkitCompassHeading) ==> h == e.webkitCompassHeading.value
    ensures ((l == AlphaListener || !Truthy(e.webkitCompassHeading))
             && e.alpha.Some? && 0.0 <= e.alpha.value < 360.0) ==> 0.0 < h <= 360.0
    ensures ((l == AlphaListener || !Truthy(e.webkitCompassHeading)) && e.alpha.Some?) ==> h == 360.0 - e.alpha.value
    ensures ((l == AlphaListener || !Truthy(e.webkitCompassHeading)) && e.alpha.None?) ==> h == 360.0
  {
    if l == CompassListener && Truthy(e.webkitCompassHeading) then e.webkitCompassHeading.value
    else InvertedAlpha(e.alpha)
  }

  /**
   * Neither listener reduces modulo 360: an alpha of 0 gives a heading of 360,
   * and a null alpha gives 360 rather than keeping the previous heading.
   */
  lemma HeadingNotNormalised(l: Listener, w: Option<real>)
    requires l == AlphaListener || !Truthy(w)
    ensures HeadingFor(l, Orientation(Some(0.0), w)) == 360.0
    ensures HeadingFor(l, Orientation(None, w)) == 360.0
  {
  }

  /**
   * The fallback listener ignores `webkitCompassHeading`; the permission-path
   * listener agrees with it whenever that reading is 0 or missing.
   */
  lemma ListenersAgreeWithoutCompass(e: Orientation, w: Option<real>)
    ensures HeadingFor(AlphaListener, e) == HeadingFor(AlphaListener, Orientation(e.alpha, w))
    ensures !Truthy(e.webkitCompassHeading) ==> HeadingFor(CompassListener, e) == HeadingFor(AlphaListener, e)
  {
  }

  /** The listeners one `startCompass` call registers. */
  function Registered(api: PermissionApi): seq<Listener>
  {
    match api
    case RequestPermission(result) => if result == "granted" then [CompassListener] else []
    case NoRequestPermission => [AlphaListener]
  }

  /** Whether one `startCompass` call sets `hasPermission`. */
  predicate Grants(api: PermissionApi)
  {
    api.NoRequestPermission? || api.result == "granted"
  }

  // ---------------------------------------------------------------------------
  // The component's state

  class SalahApp {
    var data: PrayerData
    var view: View
    var heading: real
    var hasPermission: bool
    var installPrompt: Option<InstallEvent>
    /** The `deviceorientation` listeners registered so far, in registration order. */
    var listeners: seq<Listener>

    /** The state of a freshly mounted component. */
    constructor ()
      ensures data == PrayerData(None, 0.0, DefaultCity, "")
      ensures view == Prayers && heading == 0.0 && !hasPermission && installPrompt == None
      ensures listeners == []
    {
      data := PrayerData(None, 0.0, DefaultCity, "");
      view := Prayers;
      heading := 0.0;
      hasPermission := false;
      installPrompt := None;
      listeners := [];
    }

    /** A navigation button: `setView(v)`; the frame leaves every other field as it was. */
    method SetView(v: View)
      modifies this`view
      ensures view == v
    {
      view := v;
    }

    /** The `beforeinstallprompt` handler: the latest event replaces any stored one. */
    method OnBeforeInstallPrompt(e: InstallEvent)
      modifies this`installPrompt
      ensures installPrompt == Some(e)
    {
      installPrompt := Some(e);
    }

    /**
     * `handleInstall`: with no stored event it only shows instructions; otherwise
     * it prompts with the stored event and forgets it only when the user accepts.
     */
    method HandleInstall(choice: UserChoice) returns (action: InstallAction)
      modifies this`installPrompt
      ensures old(installPrompt).None? ==> action == ShowedInstructions && installPrompt == None
      ensures old(installPrompt).Some? ==> action == Prompted(old(installPrompt).value)
      ensures old(installPrompt).Some? ==>
        installPrompt == if choice == Accepted then None else old(installPrompt)
    {
      match installPrompt {
        case None =>
          action := ShowedInstructions;
        case Some(e) =>
          action := Prompted(e);
          if choice == Accepted {
            installPrompt := None;
          }
      }
    }

    /**
     * `startCompass`: with a `requestPermission` function, permission is set
     * and the compass listener registered only on "granted"; without one, both
     * happen unconditionally. `hasPermission` is never reset to false.
     */
    method StartCompass(api: PermissionApi)
      modifies this`hasPermission, this`listeners
      ensures hasPermission == (old(hasPermission) || Grants(api))
      ensures listeners == old(listeners) + Registered(api)
    {
      match api {
        case RequestPermission(result) =>
          if result == "granted" {
            hasPermission := true;
            listeners := listeners + [CompassListener];
          }
        case NoRequestPermission =>
          hasPermission := true;
          listeners := listeners + [AlphaListener];
      }
    }

    /**
     * A `deviceorientation` event: every registered listener sets the heading in
     * registration order, so the last one's value is the one kept.
     */
    method OnOrientation(e: Orientation)
      modifies this`heading
      ensures listeners == [] ==> heading == old(heading)
      ensures listeners != [] ==> heading == HeadingFor(listeners[|listeners| - 1], e)
    {
      if listeners != [] {
        heading := HeadingFor(listeners[|listeners| - 1], e);
      }
    }

    /**
     * The geolocation success callback: times, bearing and next prayer are
     * written together in one record; the city stays "Jeddah".
     */
    method OnLocationFix(times: PrayerTimes, qibla: real, next: string)
      modifies this`data
      ensures data == PrayerData(Some(times), qibla, DefaultCity, next)
    {
      data := PrayerData(Some(times), qibla, DefaultCity, next);
    }
  }

  /** Accepting the prompt consumes the stored event: the next click only shows instructions. */
  method InstallIsOneShot(app: SalahApp, later: UserChoice) returns (first: InstallAction, second: InstallAction)
    requires app.installPrompt.Some?
    modifies app
    ensures first == Prompted(old(app.installPrompt).value)
    ensures second == ShowedInstructions && app.installPrompt == None
  {
    first := app.HandleInstall(Accepted);
    second := app.HandleInstall(later);
  }

  /** A dismissed prompt keeps the stored event: the next click prompts with it again. */
  method DismissKeepsPrompt(app: SalahApp, later: UserChoice) returns (first: InstallAction, second: InstallAction)
    requires app.installPrompt.Some?
    modifies app
    ensures first == second == Prompted(old(app.installPrompt).value)
  {
    first := app.HandleInstall(Dismissed);
    second := app.HandleInstall(later);
  }
}
