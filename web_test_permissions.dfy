/**
 * The permission-name mapping of the web test client: the test harness names
 * a permission by a string and the browser side maps it to a PermissionType
 * before forwarding it to the permission manager.
 */
module WebTestPermissions {

  datatype PermissionType =
    | Midi
    | MidiSysex
    | Notifications
    | Geolocation
    | ProtectedMediaIdentifier
    | BackgroundSync
    | AccessibilityEvents
    | ClipboardReadWrite
    | ClipboardSanitizedWrite
    | PaymentHandler
    | Sensors
    | BackgroundFetch
    | PeriodicBackgroundSync
    | WakeLockScreen
    | WakeLockSystem
    | Nfc

  /**
   * Reference table of every name the harness knows, written independently
   * of the if/else chain below.
   */
  const KnownPermissionNames: map<string, PermissionType> := map[
    "midi" := Midi,
    "midi-sysex" := MidiSysex,
    "push-messaging" := Notifications,
    "notifications" := Notifications,
    "geolocation" := Geolocation,
    "protected-media-identifier" := ProtectedMediaIdentifier,
    "background-sync" := BackgroundSync,
    "accessibility-events" := AccessibilityEvents,
    "clipboard-read-write" := ClipboardReadWrite,
    "clipboard-sanitized-write" := ClipboardSanitizedWrite,
    "payment-handler" := PaymentHandler,
    "accelerometer" := Sensors,
    "gyroscope" := Sensors,
    "magnetometer" := Sensors,
    "ambient-light-sensor" := Sensors,
    "background-fetch" := BackgroundFetch,
    "periodic-background-sync" := PeriodicBackgroundSync,
    "wake-lock-screen" := WakeLockScreen,
    "wake-lock-system" := WakeLockSystem,
    "nfc" := Nfc
  ]

  /**
   * The name to PermissionType chain of SetPermission. Names are compared as
   * whole strings; an unknown name falls back to Notifications (the source
   * marks that branch NOTREACHED, which does not stop it in release builds).
   * The contract gives exactly which names map to the types that have
   * several or confusable names; NotificationsNames covers the fallback.
   */
  function PermissionTypeForName(name: string): (t: PermissionType)
    ensures t == Midi <==> name == "midi"
    ensures t == MidiSysex <==> name == "midi-sysex"
    ensures t == Sensors <==>
      name == "accelerometer" || name == "gyroscope" ||
      name == "magnetometer" || name == "ambient-light-sensor"
    ensures t == Geolocation <==> name == "geolocation"
    ensures t == Nfc <==> name == "nfc"
  {
    if name == "midi" then Midi
    else if name == "midi-sysex" then MidiSysex
    else if name == "push-messaging" || name == "notifications" then Notifications
    else if name == "geolocation" then Geolocation
    else if name == "protected-media-identifier" then ProtectedMediaIdentifier
    else if name == "background-sync" then BackgroundSync
    else if name == "accessibility-events" then AccessibilityEvents
    else if name == "clipboard-read-write" then ClipboardReadWrite
    else if name == "clipboard-sanitized-write" then ClipboardSanitizedWrite
    else if name == "payment-handler" then PaymentHandler
    else if name == "accelerometer" || name == "gyroscope" ||
            name == "magnetometer" || name == "ambient-light-sensor" then Sensors
    else if name == "background-fetch" then BackgroundFetch
    else if name == "periodic-background-sync" then PeriodicBackgroundSync
    else if name == "wake-lock-screen" then WakeLockScreen
    else if name == "wake-lock-system" then WakeLockSystem
    else if name == "nfc" then Nfc
    else Notifications
  }

  /** The chain agrees with the reference table and falls back to Notifications. */
  lemma PermissionTypeMatchesTable(name: string)
    ensures name in KnownPermissionNames ==>
      PermissionTypeForName(name) == KnownPermissionNames[name]
    ensures name !in KnownPermissionNames ==> PermissionTypeForName(name) == Notifications
  {
    if name in KnownPermissionNames {
      KnownNameIsListed(name);
    }
  }

  /** Each key of the reference table is one of its twenty listed literals. */
  lemma KnownNameIsListed(name: string)
    requires name in KnownPermissionNames
    ensures PermissionTypeForName(name) == KnownPermissionNames[name]
  {
    if name in ListedNames1 {
      ListedNames1Map(name);
    } else if name in ListedNames2 {
      ListedNames2Map(name);
    } else if name in ListedNames3 {
      ListedNames3Map(name);
    } else {
      ListedNames4Map(name);
    }
  }

  // The listed names five at a time, in the order of the chain; the proof
  // that each maps to its table entry is split along these groups.
  const ListedNames1: set<string> := {"midi", "midi-sysex", "push-messaging", "notifications", "geolocation"}
  const ListedNames2: set<string> :=
    {"protected-media-identifier", "background-sync", "accessibility-events",
     "clipboard-read-write", "clipboard-sanitized-write"}
  const ListedNames3: set<string> :=
    {"payment-handler", "accelerometer", "gyroscope", "magnetometer", "ambient-light-sensor"}

  lemma ListedNames1Map(name: string)
    requires name in KnownPermissionNames && name in ListedNames1
    ensures PermissionTypeForName(name) == KnownPermissionNames[name]
  {
    if name == "midi" {
      assert KnownPermissionNames[name] == Midi;
    } else if name == "midi-sysex" {
      assert KnownPermissionNames[name] == MidiSysex;
    } else if name == "push-messaging" {
      assert KnownPermissionNames[name] == Notifications;
    } else if name == "notifications" {
      assert KnownPermissionNames[name] == Notifications;
    } else if name == "geolocation" {
      assert KnownPermissionNames[name] == Geolocation;
    }
  }

  lemma ListedNames2Map(name: string)
    requires name in KnownPermissionNames && name in ListedNames2
    ensures PermissionTypeForName(name) == KnownPermissionNames[name]
  {
    if name == "protected-media-identifier" {
      assert KnownPermissionNames[name] == ProtectedMediaIdentifier;
    } else if name == "background-sync" {
      assert KnownPermissionNames[name] == BackgroundSync;
    } else if name == "accessibility-events" {
      assert KnownPermissionNames[name] == AccessibilityEvents;
    } else if name == "clipboard-read-write" {
      assert KnownPermissionNames[name] == ClipboardReadWrite;
    } else if name == "clipboard-sanitized-write" {
      assert KnownPermissionNames[name] == ClipboardSanitizedWrite;
    }
  }

  lemma ListedNames3Map(name: string)
    requires name in KnownPermissionNames && name in ListedNames3
    ensures PermissionTypeForName(name) == KnownPermissionNames[name]
  {
    if name == "payment-handler" {
      assert KnownPermissionNames[name] == PaymentHandler;
    } else if name == "accelerometer" {
      assert KnownPermissionNames[name] == Sensors;
    } else if name == "gyroscope" {
      assert KnownPermissionNames[name] == Sensors;
    } else if name == "magnetometer" {
      assert KnownPermissionNames[name] == Sensors;
    } else if name == "ambient-light-sensor" {
      assert KnownPermissionNames[name] == Sensors;
    }
  }

  lemma ListedNames4Map(name: string)
    requires name in KnownPermissionNames && name !in ListedNames1 && name !in ListedNames2 && name !in ListedNames3
    ensures PermissionTypeForName(name) == KnownPermissionNames[name]
  {
    if name == "background-fetch" {
      assert KnownPermissionNames[name] == BackgroundFetch;
    } else if name == "periodic-background-sync" {
      assert KnownPermissionNames[name] == PeriodicBackgroundSync;
    } else if name == "wake-lock-screen" {
      assert KnownPermissionNames[name] == WakeLockScreen;
    } else if name == "wake-lock-system" {
      assert KnownPermissionNames[name] == WakeLockSystem;
    } else if name == "nfc" {
      assert KnownPermissionNames[name] == Nfc;
    }
  }

  /** Both notification aliases and every unlisted name, and nothing else, give Notifications. */
  lemma NotificationsNames(name: string)
    ensures PermissionTypeForName(name) == Notifications <==>
      name == "push-messaging" || name == "notifications" || name !in KnownPermissionNames
  {
    PermissionTypeMatchesTable(name);
  }

  /** Whole-string matching: a name that merely starts with "midi" is not MIDI. */
  lemma MidiNamesAreDistinct()
    ensures PermissionTypeForName("midi") == Midi
    ensures PermissionTypeForName("midi-sysex") == MidiSysex
    ensures PermissionTypeForName("midi-") == Notifications
    ensures Midi != MidiSysex
  {
    assert "midi-" !in KnownPermissionNames;
  }
}
