# Ad analytics event vocabulary

A Dafny model of the analytics-event vocabulary of the TAAdsMediation library
(`Sources/TAAdsMediation/Utils/AnalyticsEvents.swift`). The library wraps an ad-mediation SDK. The `AdAnalyticsEvent` enum lists the
twelve events the library can name: load, failure to load, display, failure to
display, click, dismissal, revenue, reward, expiry, impression, and banner
expand and collapse. Each event carries the `AdFormat` it happened to, plus a
payload where it has one. Each event has a coarse `AnalyticsEventCategory` and
an `EventAnalyticsModel`. The library's default event delegates do not go
through the enum. They call the `EventAnalyticsModel` builders directly, and
they record only failure to load, display, dismissal, click, failure to
display, reward, and banner expand and collapse. Load success is neither recorded nor logged: its tracking call is
commented out. Native expiry and native revenue are only logged, and no
impression is recorded. An `EventAnalyticsModel` is a name built by string interpolation:
`<kind>_<format>`, `<kind>_<format>_error_<code>`,
`adDidRewardUser_<format>_<type>_<amount>` or
`adRevenuePaid_<format>_<currency>_<revenue>`.

The model is pure: datatypes, functions and lemmas, like the Swift code, which is
made of `switch` expressions and one-line interpolations.

- `wrappers.dfy`: `Option`.
- `int_text.dfy` (`IntText`): Swift's decimal rendering of an `Int`
  (`"\(n)"`), and a reader that accepts exactly those texts. Swift's `Int` is
  modelled as the 64-bit range (`Int64`).
- `tokens.dfy` (`Tokens`): `Split` cuts a name at each underscore and `Join`
  glues the pieces back. Each is the other's inverse on underscore-free tokens.
  Every statement about the shape of a name is made through these two.
- `ad_format.dfy` (`AdFormats`): the five formats, their `String` raw values,
  and the synthesized `AdFormat(rawValue:)`.
- `event_analytics_model.dfy` (`EventAnalyticsModels`): `EventAnalyticsModel`
  as the name it wraps, and the twelve static builders of the extension on it.
  Each builder's contract lists the name's underscore-separated tokens.
- `analytics_events.dfy` (`AnalyticsEvents`): the categories, the event type,
  `category` and `analyticsModel`.
- `event_names.dfy` (`EventNames`): `ParseName` reads a name back into an
  event, and lemmas connect it to `analyticsModel` in both directions.

The revenue amount is a Swift `Double`. Its text form comes from Swift's
floating-point formatting, so it is not modelled. The event type is generic in
the revenue type: the library's `AdAnalyticsEvent` is `AdAnalyticsEventOf<Double>`.
`Double` is kept as an uninterpreted 64-bit pattern. The function that writes a
revenue amount as text is a parameter `describe` of `AnalyticsModel`. A name
read back yields `AdAnalyticsEventOf<string>`, whose revenue is the text it was
written as.

## Model

| member | source | states |
|---|---|---|
| `AdFormats.RawValue` | Sources/TAAdsMediation/Utils/AnalyticsEvents.swift:36-42 | Each format's raw value is non-empty and contains no underscore. |
| `AdFormats.FromRawValue` | Sources/TAAdsMediation/Utils/AnalyticsEvents.swift:36-42 | `AdFormat(rawValue:)` returns a format only if that format's raw value is the text. Conversely, a format's raw value always returns that format. |
| `AdFormats.RawValueInjective` | Sources/TAAdsMediation/Utils/AnalyticsEvents.swift:36-42 | Two formats have equal raw values exactly when they are the same format. |
| `IntText.Decimal` | Sources/TAAdsMediation/Utils/AnalyticsEvents.swift:60 | The interpolated text of an `Int` is non-empty and has no underscore. It starts with `-` exactly when the value is negative. |
| `IntText.DecimalBijection` | Sources/TAAdsMediation/Utils/AnalyticsEvents.swift:60 | Reading a text gives `n` exactly when the text is the rendering of `n`. So rendering is one-to-one, and every accepted text is a rendering. |
| `IntText.Int64RoundTrip` | Sources/TAAdsMediation/Utils/AnalyticsEvents.swift:95 | The decimal text of every 64-bit `Int` error code or reward amount reads back to the same value. |
| `EventAnalyticsModels.KindPrefix` | Sources/TAAdsMediation/Utils/AnalyticsEvents.swift:59-90 | The name prefix of each of the twelve builders is non-empty and contains no underscore. |
| `EventAnalyticsModels.AdDidLoad` | Sources/TAAdsMediation/Utils/AnalyticsEvents.swift:59 | The name's tokens are exactly `adDidLoad` and the format's raw value. |
| `EventAnalyticsModels.AdDidFailToLoad` | Sources/TAAdsMediation/Utils/AnalyticsEvents.swift:60 | The name's tokens are exactly `adDidFailToLoad`, the raw value, `error` and the decimal error code. |
| `EventAnalyticsModels.AdDidDisplay` | Sources/TAAdsMediation/Utils/AnalyticsEvents.swift:63 | The name's tokens are exactly `adDidDisplay` and the raw value. |
| `EventAnalyticsModels.AdDidFailToDisplay` | Sources/TAAdsMediation/Utils/AnalyticsEvents.swift:64 | The name's tokens are exactly `adDidFailToDisplay`, the raw value, `error` and the decimal error code. |
| `EventAnalyticsModels.AdDidClick` | Sources/TAAdsMediation/Utils/AnalyticsEvents.swift:67 | The name's tokens are exactly `adDidClick` and the raw value. |
| `EventAnalyticsModels.AdDidDismiss` | Sources/TAAdsMediation/Utils/AnalyticsEvents.swift:70 | The name's tokens are exactly `adDidDismiss` and the raw value. |
| `EventAnalyticsModels.AdRevenuePaid` | Sources/TAAdsMediation/Utils/AnalyticsEvents.swift:73-75 | The name's tokens are `adRevenuePaid`, the raw value, then the currency's tokens, then the revenue text's tokens. |
| `EventAnalyticsModels.AdDidRewardUser` | Sources/TAAdsMediation/Utils/AnalyticsEvents.swift:78-80 | The name's tokens are `adDidRewardUser`, the raw value, then the reward type's tokens. The last token is the decimal amount. |
| `EventAnalyticsModels.AdExpired` | Sources/TAAdsMediation/Utils/AnalyticsEvents.swift:83 | The name's tokens are exactly `adExpired` and the raw value. |
| `EventAnalyticsModels.AdImpressionTracked` | Sources/TAAdsMediation/Utils/AnalyticsEvents.swift:86 | The name's tokens are exactly `adImpressionTracked` and the raw value. |
| `EventAnalyticsModels.AdDidExpand` | Sources/TAAdsMediation/Utils/AnalyticsEvents.swift:89 | The name's tokens are exactly `adDidExpand` and the raw value. |
| `EventAnalyticsModels.AdDidCollapse` | Sources/TAAdsMediation/Utils/AnalyticsEvents.swift:90 | The name's tokens are exactly `adDidCollapse` and the raw value. |
| `AnalyticsEvents.AllCategories` | Sources/TAAdsMediation/Utils/AnalyticsEvents.swift:44-54 | `allCases` has nine entries, pairwise distinct. |
| `AnalyticsEvents.AllCategoriesComplete` | Sources/TAAdsMediation/Utils/AnalyticsEvents.swift:44-54 | Every category appears in `allCases`. |
| `AnalyticsEvents.Category` | Sources/TAAdsMediation/Utils/AnalyticsEvents.swift:107-128 | For each category, the events with that category are named in both directions. Load and failure to load share `.load`. Display and failure to display share `.display`. Expand and collapse share `.view`. Each remaining case has a category of its own. |
| `AnalyticsEvents.CategoryOnto` | Sources/TAAdsMediation/Utils/AnalyticsEvents.swift:107-128 | Every one of the nine categories is the category of some event. |
| `AnalyticsEvents.CategoryByKind` | Sources/TAAdsMediation/Utils/AnalyticsEvents.swift:107-128 | Two events of the same case have the same category, whatever their format and payload. |
| `AnalyticsEvents.AnalyticsModel` | Sources/TAAdsMediation/Utils/AnalyticsEvents.swift:130-157 | An event's name starts with its own kind's prefix, followed by its own format's raw value. |
| `AnalyticsEvents.NamePayload` | Sources/TAAdsMediation/Utils/AnalyticsEvents.swift:130-157 | A name has exactly two tokens when the event has no payload. For failures, the tokens after the format are `error` and the event's own code. For a reward, the last token is the event's own amount. |
| `EventNames.KindOfPrefix` | Sources/TAAdsMediation/Utils/AnalyticsEvents.swift:59-90 | A first token identifies at most one builder, and each builder's prefix identifies that builder. So the prefixes are pairwise distinct. |
| `EventNames.ParseHead` | Sources/TAAdsMediation/Utils/AnalyticsEvents.swift:130-157 | The first two tokens of any event's name read back as that event's case and format. |
| `EventNames.ParseAnalyticsModel` | Sources/TAAdsMediation/Utils/AnalyticsEvents.swift:130-157 | Reading an event's name gives back the same event, with the revenue replaced by its text. Nothing is dropped or swapped, and error codes of either sign come back exactly. |
| `EventNames.ParseNameSound` | Sources/TAAdsMediation/Utils/AnalyticsEvents.swift:59-90 | Any text that reads as an event is exactly the name that event's builder writes. |
| `EventNames.NameDeterminesKind` | Sources/TAAdsMediation/Utils/AnalyticsEvents.swift:107-128 | Two events with the same name have the same case, format and category, however revenue is written. |
| `EventNames.NamesDetermineEvents` | Sources/TAAdsMediation/Utils/AnalyticsEvents.swift:93-105 | Suppose revenue text has no underscore, as Swift's `Double` text never does. Then two events have the same name exactly when they agree on case, format, every payload and revenue text. |
| `EventNames.NamesDistinguishEvents` | Sources/TAAdsMediation/Utils/AnalyticsEvents.swift:93-105 | Suppose revenue text is one-to-one and has no underscore. Then two events have the same name exactly when they are the same event. |
| `EventNames.FailureNameExample` | Sources/TAAdsMediation/Utils/AnalyticsEvents.swift:60 | A banner load failure with code -1001 is named `adDidFailToLoad_banner_error_-1001`. |
| `EventNames.FailureNameExampleParses` | Sources/TAAdsMediation/Utils/AnalyticsEvents.swift:60 | That name reads back as the same failure. |

## Left out

- `globalTAAnalytics` (line 34): a mutable global handle to the external analytics sink. It has no logic of its own.
- The text form of the revenue `Double` in `adRevenuePaid` (lines 73-75). It depends on Swift's floating-point formatting, so it is the `describe` parameter. `Double` is an uninterpreted bit pattern.
- EventNames.ParseAnalyticsModel: for a revenue event, it requires the revenue text to contain no underscore. Swift's `Double` descriptions never do, but that formatting is not part of this model.
- EventNames.NamesDistinguishEvents: it also assumes the revenue text is one-to-one. Swift's rendering is not: every NaN prints as `nan`, whatever its payload. So this lemma does not apply to the library's own renderer. `EventNames.NamesDetermineEvents` needs only the no-underscore premise. It proves that a name determines the case, the format, every payload and the revenue text, but not the revenue bits.
- The internals of `EventAnalyticsModel`, which comes from the external TAAnalytics package. Only the name string it is built from is modelled.
- The `String` raw values and the `Hashable` conformance of `AnalyticsEventCategory`. Nothing in the file reads them. Its `CaseIterable` list is modelled.
- Names are Dafny strings, sequences of Unicode scalars, and are compared scalar by scalar. Swift's `String ==` compares by canonical equivalence instead. So in `EventNames.ParseNameSound`, `EventNames.NamesDetermineEvents` and `EventNames.NamesDistinguishEvents`, "same name" means the same scalars: a precomposed and a decomposed accent in a reward type give names that Swift calls equal and the model keeps apart. Building names is unaffected.
- Swift's `Int` is taken to be 64 bits wide, as on the platforms the library targets.
- Outside this file: the per-format ad services and views, the default event delegates that choose which event to record for each SDK callback, the native ad view layout, the debug-menu hook and the package manifest. These are UI, calls into the vendor SDK, or configuration.
