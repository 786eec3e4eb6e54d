# packaging-version in Dafny

A model of the Rust crate `packaging-version`, a port of Python's
`packaging.version`. It parses version strings of the form set out in
PEP 440 (`1!2.0rc1.post3.dev4+local.7`) and orders them. The whole crate is
one file, `src/lib.rs`. Its three parts are modelled here with what is
proved about each of them:

- **The grammar matcher** (`VERSION_PATTERN`, `src/lib.rs:5-36`).
  `pattern.dfy` does not go through a regular-expression engine. It is a
  scanner written for this one pattern. It behaves the way the crate's
  engine behaves on this pattern:
  - the search is unanchored and the leftmost match wins;
  - the `v?` prefix and surrounding text do not change the captures;
  - in an alternation, the first alternative in textual order that
    occurs wins;
  - every repetition is greedy.

  Proved:
  - the match starts at the first digit, or at the `v` or `V` just
    before it;
  - when each optional group is taken, and which text it captures;
  - the release and local runs are greedy;
  - every capture group has its shape (`Pattern.ScanWellFormed`).
- **The segment normalizer** (`parse_letter_version`,
  `parse_local_version` and `Version::parse`, `src/lib.rs:150-209`).
  These live in `normalize.dfy`. Proved: case-insensitivity, the alias
  table, and the invariants of every parsed `Version`
  (`Normalize.ParseWellFormed`).
- **The comparison key and the order** (`VersionCmpKey`, `From<&Version>`,
  `PartialEq`, `PartialOrd` and `Ord`, `src/lib.rs:39-148`). These live in
  `version_order.dfy`.
  - The loop that drops trailing zeros from the release is a method,
    `VersionOrder.BuildCmpKey`. Its loop invariant ties it to the function
    `StripTrailingZeros`.
  - The derived `Ord` impls are lexicographic comparisons. They are proved
    to be total orders.
  - `Version::cmp` is proved reflexive, antisymmetric and transitive, and
    consistent with `==`.
  - The release rules are proved as lemmas: epoch first, trailing zeros
    ignored, `dev < pre < final < post`, and local after public.

Supporting modules:

- `text.dfy`: ASCII character classes, `to_ascii_lowercase`, `u64`
  parsing, and splitting on separator characters, with a split/join
  round trip.
- `orderings.dfy`: `Ordering` and the lexicographic order of slices.
- `wrappers.dfy`: `Option`.

`examples.dfy` (module `TestVectors`) states and proves what the model
returns for the inputs of `tests/test_version.rs`:

- the parse of each input it names, proved one capture group at a time;
- the crate's own unit test of `parse_local_version`;
- the ascending list of versions with epoch 0, as a chain of adjacent
  comparisons.

Numbers are `nat`. A `u64` appears as the bound `U64_LIMIT`: `str::parse`
returns an error above it, and `Version::parse` would then panic in
`unwrap`.

## Model

| member | source | states |
|---|---|---|
| Text.ToAsciiLowercase | src/lib.rs:152 | maps exactly the ASCII capitals to their lower-case letters, keeps every other character, keeps the length; no capital remains |
| Text.LowercaseIdempotent | src/lib.rs:152 | lower-casing twice is lower-casing once |
| Text.AlreadyLowercase | src/lib.rs:152 | text without capitals is unchanged by lower-casing |
| Text.ParseU64 | src/lib.rs:178 | `str::parse::<u64>`: a non-empty digit string succeeds exactly when its value is below 2^64, and then yields that value; the empty string and text containing a lower-case letter fail |
| Text.LeadingZeroIgnored | tests/test_version.rs:196-204 | a leading `0` does not change the value of a digit string (`01` is 1, `00` is 0) |
| Text.Split | src/lib.rs:177 | `Regex::split` on a one-character separator class: one piece more than there are separators, and no piece contains a separator |
| Text.SplitRoundTrip | src/lib.rs:177 | gluing the pieces back with the separators that were removed gives the original text |
| Text.SplitNoSeparator | src/lib.rs:177 | text without a separator splits into itself alone |
| Text.SplitAtSeparator | src/lib.rs:194 | splitting at the first separator gives the text before it followed by the split of the rest |
| Orderings.Flip | src/lib.rs:143-148 | `Ordering::reverse`: swaps `Less` and `Greater`, keeps `Equal` |
| Orderings.CmpNat | src/lib.rs:60 | `Ord for u64`: `Less` exactly when smaller, `Greater` exactly when larger |
| Orderings.CmpChar | src/lib.rs:42 | `Ord for char` by code point, both directions |
| Orderings.CmpNatIsTotalOrder | src/lib.rs:60 | the integer comparison is a total order: equal iff the same, antisymmetric, transitive |
| Orderings.CmpCharIsTotalOrder | src/lib.rs:42 | the character comparison is a total order |
| Orderings.LexCmpEqual | src/lib.rs:61 | the derived slice order over a total order returns `Equal` exactly for equal slices |
| Orderings.LexCmpFlip | src/lib.rs:61 | the slice order is antisymmetric |
| Orderings.LexCmpTransitive | src/lib.rs:61 | the slice order is transitive |
| Orderings.LexCmpProperPrefix | src/lib.rs:55 | a proper prefix sorts below the slice it begins |
| Orderings.CmpStringIsTotalOrder | src/lib.rs:42 | `Ord for &str` (the tags of the key) is a total order |
| Pattern.FirstDigit | src/lib.rs:192 | the first digit at or after a position, with no digit before it |
| Pattern.DigitsEnd | src/lib.rs:15 | `[0-9]+` is greedy: all digits up to the end, and no digit follows |
| Pattern.AlnumEnd | src/lib.rs:34 | `[a-z0-9]+` under the case-insensitive flag is greedy: all letters and digits, none follows |
| Pattern.OptSep | src/lib.rs:12 | `[-_\.]?` consumes one separator character or nothing |
| Pattern.FirstAlternative | src/lib.rs:13 | an alternation picks the first alternative in textual order that occurs, case-insensitively; no earlier one occurs, and none occurs when it picks nothing |
| Pattern.ScanLettered | src/lib.rs:11-16 | an optional pre or dev group: a letter is captured exactly when one of the alternatives occurs after the optional separator, and it is the text of the first one that does; the number is then the greedy digit run after a second optional separator, captured exactly when that run is non-empty; without a letter the group captures nothing and consumes nothing |
| Pattern.ScanEpoch | src/lib.rs:9 | the epoch is taken exactly when a digit run is followed by `!` and a digit; it then captures that digit run and ends after the `!`, and otherwise consumes nothing; it ends where the release's first digit is |
| Pattern.ScanPost | src/lib.rs:17-26 | the `-N` shorthand is taken exactly when `-` is followed by a digit, and then captures the whole digit run and excludes the spelled form; otherwise the spelled form is the post-tag group |
| Pattern.ScanLocal | src/lib.rs:34 | the local group is taken exactly when `+` is followed by a letter or digit; it then captures the text after `+` up to the end of the local run, and otherwise consumes nothing |
| Pattern.Scan | src/lib.rs:6-34 | `captures` finds a match exactly when the input contains an ASCII digit; the match is a span of the input that starts at the first digit, or at the `v` or `V` just before it, with the captures of the match at that digit |
| Pattern.MatchAt | src/lib.rs:8-34 | a match at a digit starts one character earlier exactly when a `v` or `V` precedes the digit, and otherwise at the digit; it covers the digit; its epoch is the epoch group there, and its release is the release run after the epoch |
| Pattern.ReleaseEndGreedy | src/lib.rs:10 | the release run ends in a digit, and neither a digit nor a dot followed by a digit comes after it |
| Pattern.ReleaseEndLast | src/lib.rs:10 | the release run ends in a digit |
| Pattern.ReleaseEndMaximal | src/lib.rs:10 | neither a digit nor a dot followed by a digit comes after the release run |
| Pattern.LocalEndGreedy | src/lib.rs:34 | the local run ends in a letter or digit, and neither a letter or digit nor a separator followed by one comes after it |
| Pattern.LocalEndLast | src/lib.rs:34 | the local run ends in a letter or digit |
| Pattern.LocalEndMaximal | src/lib.rs:34 | neither a letter or digit nor a separator followed by one comes after the local run |
| Pattern.ReleaseShape | src/lib.rs:10 | the release capture is `[0-9]+(?:\.[0-9]+)*`: splitting at dots gives non-empty digit runs |
| Pattern.LocalEndShape | src/lib.rs:34 | the local capture is non-empty alphanumeric runs joined by `[-_\.]` |
| Pattern.SplitAfterPiece | src/lib.rs:10 | splitting a separator-free piece, a separator and a tail gives the piece followed by the split of the tail |
| Pattern.CapturedAlternative | src/lib.rs:13 | the text an alternation captured lower-cases to the alternative that matched |
| Pattern.LiteralPrefix | src/lib.rs:13 | where a spelling occurs, each of its prefixes occurs too |
| Pattern.LetteredLetter | src/lib.rs:11-16 | a captured letter lower-cases to the alternative the alternation picked |
| Pattern.PreLetterShape | src/lib.rs:11-16 | a captured pre-release letter lower-cases to one of a, b, c, rc, pre, and never to alpha, beta or preview |
| Pattern.PostLetterShape | src/lib.rs:17-26 | a captured post letter lower-cases to post, rev or r |
| Pattern.DevLetterShape | src/lib.rs:27-32 | a captured dev letter lower-cases to dev |
| Pattern.ScanLocalShape | src/lib.rs:34 | a captured local segment has the local shape |
| Pattern.ScanWellFormed | src/lib.rs:6-34 | every match has well-formed captures: numeric groups are digit runs, the release is dotted digits, a number is captured only with its letter, shorthand and spelled post exclude each other, and the letter and local groups have their shapes |
| Pattern.ShortPreTagTaken | src/lib.rs:13 | on `alpha1` the alternation picks `a` although `alpha` occurs there |
| Pattern.LongestPreTagTaken | src/lib.rs:13 | with the spellings ordered longest first, the alternation picks a spelling at least as long as any that occurs |
| Pattern.EarlierSpellingNotShorter | src/lib.rs:13 | in the longest-first order, a spelling is never shorter than a later one with the same first letter |
| Normalize.ParseLetterVersion | src/lib.rs:150-172 | no result exactly when neither letter nor number was captured; a captured letter is lower-cased and mapped through the alias table to give the tag; the number defaults to 0 and otherwise is the value of its digits, below 2^64; a number alone is a post release |
| Normalize.PreLetterTags | src/lib.rs:152-158 | a pre-release letter in any case gets tag a exactly for a and alpha, b exactly for b and beta, rc exactly for c, rc, pre and preview |
| Normalize.PostLetterTag | src/lib.rs:152-159 | a post letter in any case (post, rev, r) gets tag post |
| Normalize.LetterCaseInsensitive | src/lib.rs:152 | letters that lower-case alike give the same segment |
| Normalize.CanonicalLetterIdempotent | src/lib.rs:155-161 | the alias table maps every canonical letter to itself |
| Normalize.CanonicalPreLetters | src/lib.rs:155-158 | every pre-release spelling becomes a, b or rc: a exactly for a and alpha, b exactly for b and beta, rc exactly for c, rc, pre and preview |
| Normalize.CanonicalPostLetters | src/lib.rs:159 | every post spelling becomes post |
| Normalize.ParseLocalPart | src/lib.rs:178-182 | a local piece is numeric exactly when it parses as a `u64`, with that value; otherwise it is kept as text, unchanged |
| Normalize.ParseLocalPartIntended | src/lib.rs:176-183 | the corrected piece parser: numeric exactly when the piece parses as a `u64`, with that value; otherwise the piece lower-cased |
| Normalize.LocalPartIntendedCaseInsensitive | src/lib.rs:176-183 | pieces that lower-case alike give the same corrected local part |
| Normalize.LowercaseKeepsNumbers | src/lib.rs:178 | lower-casing a piece never changes whether or how it parses as a number |
| Normalize.LocalCaseKept | src/lib.rs:176-183 | as written, `AbC` stays `AbC` and differs from `abc`; the corrected parser gives `abc` for both |
| Normalize.LocalPartIntendedAgrees | src/lib.rs:176-183 | on text without capitals the corrected and the written piece parsers agree |
| Normalize.ParseLocalVersion | src/lib.rs:174-188 | no local segment gives none; otherwise one part per piece between `[\._-]` separators, in order, each parsed as a local piece |
| Normalize.ParseRelease | src/lib.rs:194 | the release has at least one component, one per dot-separated piece, each the value of its digits |
| Normalize.FromCaptures | src/lib.rs:192-207 | the epoch is the captured epoch's value, or 0 without one; the release is the non-empty parse of the release capture; pre, post and dev are the letter segments of their groups, post taking the shorthand number when there is one; local is the parse of the local capture |
| Normalize.Parse | src/lib.rs:190-209 | `Version::parse` returns a version exactly when the input contains an ASCII digit |
| Normalize.LocalPartsWellFormed | src/lib.rs:174-188 | a captured local segment gives at least one part; numeric parts fit a `u64`, and text parts are non-empty alphanumeric runs that do not parse as a `u64` |
| Normalize.FromCapturesWellFormed | src/lib.rs:193-198 | well-formed captures normalize to a well-formed version |
| Normalize.ParseWellFormed | src/lib.rs:190-209 | every parsed version is well-formed: numbers below 2^64, a non-empty release, pre tag in a/b/rc, post tag post, dev tag dev, and local parts well-formed |
| VersionOrder.StripTrailingZeros | src/lib.rs:81-86 | the release without trailing zeros is a prefix of the release, followed only by zeros, and does not end in a zero |
| VersionOrder.StripTrailingZerosUnique | src/lib.rs:81-86 | those three properties determine the stripped release uniquely |
| VersionOrder.BuildCmpKey | src/lib.rs:79-125 | the loop moves its cursor back over the zero components; the resulting key is the key of the version, with the release cut at the cursor |
| VersionOrder.Equals | src/lib.rs:127-132 | `eq` is true exactly when the two keys are equal, and exactly when `cmp` returns `Equal` |
| VersionOrder.PartialCompare | src/lib.rs:136-141 | `partial_cmp` is always `Some` of the key order |
| VersionOrder.Compare | src/lib.rs:143-148 | `cmp` is the key order, and swapping the arguments reverses it |
| VersionOrder.CmpPrePostDevIsTotalOrder | src/lib.rs:39-44 | derived order of `PrePostDevType` (`NegativeInf` < `Tuple` < `PositiveInf`, tuples by tag then number) is a total order |
| VersionOrder.CmpLocalPartIsTotalOrder | src/lib.rs:46-50 | derived order of `LocalTypePart` (text below numbers) is a total order |
| VersionOrder.CmpLocalIsTotalOrder | src/lib.rs:52-56 | derived order of `LocalType` (absent first, then slices of parts) is a total order |
| VersionOrder.CmpKeysEqual | src/lib.rs:58-66 | the derived key order returns `Equal` exactly for equal keys |
| VersionOrder.CmpKeysFlip | src/lib.rs:58-66 | the derived key order is antisymmetric |
| VersionOrder.CmpKeysTransitive | src/lib.rs:58-66 | the derived key order is transitive |
| VersionOrder.CmpEqualIffEq | src/lib.rs:127-148 | `cmp` returns `Equal` exactly when `eq` holds, so `Ord` agrees with `PartialEq` |
| VersionOrder.CmpReflexive | src/lib.rs:143-148 | every version compares `Equal` with itself |
| VersionOrder.CmpAntisymmetric | src/lib.rs:143-148 | swapping the arguments of `cmp` reverses the result |
| VersionOrder.CmpTransitive | src/lib.rs:143-148 | `cmp` is transitive |
| VersionOrder.PartialCmpIsTotal | src/lib.rs:136-141 | `partial_cmp` is never `None`, agrees with `cmp`, and gives `Some(Equal)` exactly when `eq` holds |
| VersionOrder.StripAppendedZeros | src/lib.rs:81-86 | appending zeros to a release does not change its stripped form |
| VersionOrder.ReleaseTrailingZerosIgnored | src/lib.rs:81-86 | `1`, `1.0` and `1.0.0` are equal versions |
| VersionOrder.EpochDecides | src/lib.rs:117 | the smaller epoch is the smaller version, whatever follows, under both the written and the corrected dev key |
| VersionOrder.SameEpochIgnored | src/lib.rs:117 | moving two versions of one epoch to another common epoch keeps their order, written and corrected |
| VersionOrder.PhaseOrder | src/lib.rs:88-102 | at the same epoch and release, a bare dev release < pre-release < final < post release |
| VersionOrder.PreReleaseOrder | src/lib.rs:88-89 | two different pre-releases of the same release order by tag, then by number, and never compare equal |
| VersionOrder.PostReleaseOrder | src/lib.rs:98-99 | two post releases of the same final release order by their numbers |
| VersionOrder.LocalAfterPublic | src/lib.rs:110-114 | a version without a local segment is below the same version with one |
| VersionOrder.LocalPartOrder | src/lib.rs:46-50 | a text part is below every numeric part, and numeric parts order by value |
| VersionOrder.LocalPrefixSmaller | src/lib.rs:52-56 | a local segment is below every longer local segment that begins with it |
| VersionOrder.DevOnlyMattersAsPresence | src/lib.rs:104-108 | as written, two versions that differ only in their dev segments are equal exactly when both or neither have one, or when they have a pre or post release; the dev number never matters |
| VersionOrder.DevSegmentIgnored | src/lib.rs:104-108 | as written, `1.0.post456.dev34` equals `1.0.post456` |
| VersionOrder.IntendedDevOrder | src/lib.rs:104-108 | with the dev key read from the dev field, a dev release sorts below the same version without one, and two dev releases order by their numbers |
| VersionOrder.CmpIntendedIsTotalOrder | src/lib.rs:104-108 | the corrected order is antisymmetric and transitive |
| VersionOrder.IntendedAgreesWithoutDev | src/lib.rs:104-108 | for versions without dev segments the corrected and the written order agree |
| TestVectors.Rc1Parse | tests/test_version.rs:275 | `1.0rc1` parses to epoch 0, release 1.0, pre rc1 |
| TestVectors.C1Parse | tests/test_version.rs:275 | `1.0c1` parses to the same version as `1.0rc1` |
| TestVectors.RcSpellingsEqual | tests/test_version.rs:274-276 | `1.0c1` and `1.0rc1` parse to equal versions |
| TestVectors.FrenchToastRejected | tests/test_version.rs:76 | `french toast` does not parse |
| TestVectors.LocalTrailingPlusParse | tests/test_version.rs:78 | `1.0+a+` parses as `1.0+a` |
| TestVectors.PlusPlusParse | tests/test_version.rs:79 | `1.0++` parses as `1.0` |
| TestVectors.LocalUnderscoreParse | tests/test_version.rs:80 | `1.0+_foobar` parses as `1.0` |
| TestVectors.LocalAmpersandParse | tests/test_version.rs:81 | `1.0+foo&asd` parses as `1.0+foo` |
| TestVectors.LocalTwoPlusParse | tests/test_version.rs:82 | `1.0+1+1` parses as `1.0+1` |
| TestVectors.RejectedInputsAccepted | tests/test_version.rs:75-83 | all five inputs the test expects to be rejected parse |
| TestVectors.Alpha1Parse | tests/test_version.rs:117 | `1.0.alpha1` parses to pre a0 |
| TestVectors.AlphaOne | src/lib.rs:156 | `alpha` with number 1 normalizes to a1 |
| TestVectors.Alpha1LongestFirst | src/lib.rs:13 | with the spellings ordered longest first, `1.0.alpha1` captures `alpha` and `1` |
| TestVectors.AlphaNumberDropped | tests/test_version.rs:117 | `1.0.alpha1` parses to a0, while the longest-first order would give a1, as the test expects |
| TestVectors.UpperLocalParse | tests/test_version.rs:194 | `1.0+AbC` parses with the local part `AbC` |
| TestVectors.LocalCaseKeptOnParse | tests/test_version.rs:194 | `1.0+AbC` keeps its capitals and is not equal to `1.0+abc` |
| TestVectors.ZeroEpochParse | tests/test_version.rs:203 | `00!1.2` parses to epoch 0, release 1.2 |
| TestVectors.LeadingZeroParse | tests/test_version.rs:196 | `1.01` parses to release 1.1 |
| TestVectors.Release1_01 | src/lib.rs:194 | the release text `1.01` becomes the components 1 and 1 |
| TestVectors.PaddedParse | tests/test_version.rs:207 | `   v1.0\t\n` parses to 1.0; the match spans `v1.0` |
| TestVectors.ShorthandParse | tests/test_version.rs:190 | `1.0-5` parses to the post release post5 |
| TestVectors.FullParse | tests/test_version.rs:253 | `7!1.0b2.post345.dev456` parses to epoch 7, b2, post345, dev456 |
| TestVectors.RevLocalParse | tests/test_version.rs:33 | `1.2.rev33+123456` parses to post33 with the numeric local part 123456 |
| TestVectors.Alpha12Dev456Parse | tests/test_version.rs:10 | `1.0a12.dev456` parses to a12 with dev456 |
| TestVectors.Alpha12Parse | tests/test_version.rs:11 | `1.0a12` parses to a12 |
| TestVectors.DevReleaseNotBelow | tests/test_version.rs:10-11 | as written, `1.0a12.dev456` and `1.0a12` compare `Equal`; with the corrected dev key the dev release is below |
| TestVectors.LocalUnitTest | src/lib.rs:216-228 | `abc.1.twelve` splits into the parts `abc`, 1, `twelve` |
| TestVectors.CanonicalPreTagsAscending | tests/test_version.rs:11-19 | the canonical tags order a < b < rc |
| TestVectors.InnerZeroKept | tests/test_version.rs:233 | stripping keeps an inner zero (`1.0.1`) and drops trailing ones (`1.0.0` to `1`) |
| TestVectors.Adjacent0 | tests/test_version.rs:7-8 | `1.0.dev456` < `1.0a1`, as written and corrected |
| TestVectors.Adjacent1 | tests/test_version.rs:8-9 | `1.0a1` < `1.0a2.dev456` |
| TestVectors.Adjacent2 | tests/test_version.rs:9-10 | `1.0a2.dev456` < `1.0a12.dev456` |
| TestVectors.Adjacent3 | tests/test_version.rs:10-11 | `1.0a12.dev456` and `1.0a12` compare `Equal` as written and `Less` corrected |
| TestVectors.Adjacent4 | tests/test_version.rs:11-12 | `1.0a12` < `1.0b1.dev456` |
| TestVectors.Adjacent5 | tests/test_version.rs:12-13 | `1.0b1.dev456` < `1.0b2` |
| TestVectors.Adjacent6 | tests/test_version.rs:13-14 | `1.0b2` < `1.0b2.post345.dev456` |
| TestVectors.Adjacent7 | tests/test_version.rs:14-15 | `1.0b2.post345.dev456` and `1.0b2.post345` compare `Equal` as written and `Less` corrected |
| TestVectors.Adjacent8 | tests/test_version.rs:15-16 | `1.0b2.post345` < `1.0b2-346` |
| TestVectors.Adjacent9 | tests/test_version.rs:16-17 | `1.0b2-346` < `1.0c1.dev456` |
| TestVectors.Adjacent10 | tests/test_version.rs:17-18 | `1.0c1.dev456` and `1.0c1` compare `Equal` as written and `Less` corrected |
| TestVectors.Adjacent11 | tests/test_version.rs:18-19 | `1.0c1` < `1.0rc2` |
| TestVectors.Adjacent12 | tests/test_version.rs:19-20 | `1.0rc2` < `1.0c3` |
| TestVectors.Adjacent13 | tests/test_version.rs:20-21 | `1.0c3` < `1.0` |
| TestVectors.Adjacent14 | tests/test_version.rs:21-22 | `1.0` < `1.0.post456.dev34` |
| TestVectors.Adjacent15 | tests/test_version.rs:22-23 | `1.0.post456.dev34` and `1.0.post456` compare `Equal` as written and `Less` corrected |
| TestVectors.Adjacent16 | tests/test_version.rs:23-24 | `1.0.post456` < `1.1.dev1` |
| TestVectors.Adjacent17 | tests/test_version.rs:24-25 | `1.1.dev1` < `1.2+123abc` |
| TestVectors.Adjacent18 | tests/test_version.rs:25-26 | `1.2+123abc` < `1.2+123abc456` |
| TestVectors.Adjacent19 | tests/test_version.rs:26-27 | `1.2+123abc456` < `1.2+abc` |
| TestVectors.Adjacent20 | tests/test_version.rs:27-28 | `1.2+abc` < `1.2+abc123` |
| TestVectors.Adjacent21 | tests/test_version.rs:28-29 | `1.2+abc123` < `1.2+abc123def` |
| TestVectors.Adjacent22 | tests/test_version.rs:29-30 | `1.2+abc123def` < `1.2+1234.abc` |
| TestVectors.Adjacent23 | tests/test_version.rs:30-31 | `1.2+1234.abc` < `1.2+123456` |
| TestVectors.Adjacent24 | tests/test_version.rs:31-32 | `1.2+123456` < `1.2.r32+123456` |
| TestVectors.Adjacent25 | tests/test_version.rs:32-33 | `1.2.r32+123456` < `1.2.rev33+123456` |

The adjacent pairs compare the normalized forms of the listed versions.
Only some of them are parsed from text. With `VersionOrder.CmpTransitive`,
`VersionOrder.CmpAntisymmetric` and `VersionOrder.CmpEqualIffEq`, the
pairs give the all-pairs comparisons that the tests run in loops.

## Where the code and the tests or PEP 440 disagree

The model follows `src/lib.rs` in each of these cases:

- The tests expect `1.0+a+`, `1.0++`, `1.0+_foobar`, `1.0+foo&asd` and
  `1.0+1+1` to be rejected (`tests/test_version.rs:77-82`). The pattern is
  not anchored, so each of them parses as its longest valid prefix
  (`TestVectors.RejectedInputsAccepted`).
- The alternation `a|b|c|rc|alpha|beta|pre|preview` tries `a` before
  `alpha`, `b` before `beta` and `pre` before `preview`. So `1.0alpha1`
  captures `a`, and its number is lost: it parses as `1.0a0`, not `1.0a1`.
  The `alpha`, `beta` and `preview` rows of the alias table are never
  reached (`Pattern.PreLetterShape`).
- Local parts keep their case. `1.0+AbC` is not equal to `1.0+abc`,
  although the tests expect lower-casing, and PEP 440's normal form and
  Python's `packaging.version` lower-case local parts.
- The dev key is read from the post field, so the dev segment orders
  nothing beyond its presence in a bare dev release. Four adjacent pairs
  of the ascending test list compare `Equal` (`TestVectors.Adjacent3`,
  `Adjacent7`, `Adjacent10` and `Adjacent15`), and four more in the half
  of the list with epoch 1.
- Python's `packaging.version` anchors the pattern between `^\s*` and
  `\s*$`, so it needs a full match after trimming whitespace. The crate's
  pattern is not anchored and accepts a digit anywhere in the text.

## Left out

- Pattern.Scan: requires ASCII input. The crate's engine also matches some
  non-ASCII characters under the case-insensitive flag, for instance the
  long s `ſ` for `s`; Unicode case folding is not modelled.
- Normalize.Parse: requires `ParsesWithoutPanic`, so that no captured
  number overflows a `u64`. Where the crate would panic in `unwrap`,
  `Parse` is not defined.
- The regular-expression engine and `lazy_static` are not modelled. The
  scanner states the one pattern's behaviour directly.
- `LocalTypePart`'s derived `Debug` is not modelled. `Display` and `key()`
  are used by the tests but are not defined in `src/lib.rs`, so they are
  not part of this model.
- The test loops are represented by adjacent pairs with the transitivity,
  antisymmetry and `Equal`-iff-`eq` lemmas, not stated pair by pair. This covers
  `test_lt_combinatorial`, `test_le_combinatorial`, `test_ne_combinatorial`
  and `test_gt_combinatorial`. The half of the list with epoch 1 is not
  spelled out. Its pairs with the epoch-0 half follow from
  `VersionOrder.EpochDecides`, and the pairs within it follow from the
  epoch-0 pairs by `VersionOrder.SameEpochIgnored`.
- `test_valid_versions`, `test_normalized_versions` and
  `test_version_str_repr` are covered for the inputs parsed in
  `TestVectors`, not for every listed input.
- The key borrows from the version (`&'v str`, `&'v [u64]`); the model
  copies values, so borrowing and lifetimes are not represented.

## Findings

| source | as written | input that shows it | evidently intended | confidence | as-written member | corrected member |
|---|---|---|---|---|---|---|
| src/lib.rs:104-108 | the dev key is built from `value.post` | `1.0a12.dev456` vs `1.0a12` compare `Equal` (`tests/test_version.rs:10-11` expects `Less`) | build the dev key from `value.dev` | high, not executed | VersionOrder.DevSegmentIgnored | VersionOrder.IntendedDevOrder |
| src/lib.rs:13 | `a` is tried before `alpha` (and `b` before `beta`, `pre` before `preview`) | `1.0.alpha1` parses as `1.0a0` (`tests/test_version.rs:117` expects `1.0a1`) | longer spellings first, so the whole word and its number are captured | high, not executed | Pattern.ShortPreTagTaken | Pattern.LongestPreTagTaken |
| src/lib.rs:176-183 | alphanumeric local parts are kept as written | `1.0+AbC` differs from `1.0+abc` (`tests/test_version.rs:194` expects them equal) | lower-case alphanumeric local parts | high, not executed | Normalize.LocalCaseKept | Normalize.LocalPartIntendedCaseInsensitive |

The order and the parse operations model the code as written. The
corrected definitions are `VersionOrder.CmpIntended` (dev key from the dev
field), `Pattern.PRE_TAGS_LONGEST_FIRST` (the spellings in longest-first
order) and `Normalize.ParseLocalPartIntended` (the piece lower-cased). The
lemmas named above are proved about them; `Normalize.LocalPartIntendedAgrees`
adds that the corrected piece parser agrees with the written one on text
without capitals.
