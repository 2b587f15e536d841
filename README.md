# Bitcoin network dashboard — verified model of its logic

The application is a Next.js dashboard about Bitcoin network activity:
- mempool congestion and fees;
- OP_RETURN data usage;
- drivechain (sidechain) statistics;
- memecoin / BRC-20 token activity.

Most of the application is presentation. This project models the parts that carry logic, each in its own module:

- **`Middleware`** (`middleware.dfy`): the request middleware's public-path test over its constant list of six entries, and the response it returns.
- **`MempoolApi`, `OpReturnApi`, `DrivechainApi`, `MemecoinApi`** (with `TxIds` and the shared `Common`): the data services in `app/lib`. Each one builds a statistics record from random draws.
  - Every `Math.floor(Math.random() * k)` is an integer draw in `[0, k)` passed as a parameter.
  - A value printed with `toFixed(n)` is drawn already rounded, as an integer count of `10^-n` units.
  - The one network request is a `Fetch` input: success with the response body, or failure.
  - Loops that push into a result array are methods with loop invariants.
  - Filters, reductions and record construction are functions.
- **`Dashboard`, `Theme`, `MempoolStatus`, `OpReturnTracker`, `MemecoinTracker`, `DrivechainActivity`, `Onboarding`, `Landing`, `FeaturePanel`**: the UI state machines. Each is a class whose fields are the component's state.
  - Event handlers, timers and intervals are methods: `Tick`, `TimerFired`, `Click`, `HandleScroll` and so on.
  - Each method's `ensures` clause gives the whole new state, so it also says which fields stay unchanged.
  - Pure lookups and formatting rules (colours, sign prefixes, the recommended fee, the section classifier) are functions, with lemmas about them.

Dates are day offsets ("days ago"), timestamps are minutes before now, and the clock is a parameter.

All files are verified together, with Dafny 4.11: `dafny verify --resource-limit 2000000 --verification-time-limit 0 *.dfy`; the proofs need no other option.

## Model

| member | source | states |
|---|---|---|
| Middleware.ScanPublic | middleware.ts:14-18 | the loop's first-match-return result is true exactly when some entry matches (equal, or followed by `/` or `?`) |
| Middleware.IsPublic | middleware.ts:6-18 | a path is public exactly when one of the six entries matches it |
| Middleware.Handle | middleware.ts:14-23 | the response is the pass-through `Next` whether or not the path is public; it never redirects |
| Middleware.ExactEntryIsPublic | middleware.ts:6 | every one of the six entries is itself public |
| Middleware.ExtensionIsPublic | middleware.ts:15 | an entry followed by `/` or `?` and any rest is public |
| Middleware.OrderIndependent | middleware.ts:14-18 | two entry lists with the same members give the same verdict for every path, whatever their order or repetition |
| Middleware.NoLeadingSlashNotPublic | middleware.ts:6 | a path not starting with `/` is never public |
| Middleware.RootEntryAdmits | middleware.ts:15 | the entry `/` admits exactly `/` and the paths beginning `//` or `/?` |
| Middleware.RootDoesNotAdmitOthers | middleware.ts:6-15 | a path whose second character is not a separator and starts no other entry is not public |
| Middleware.DashboardIsProtected | middleware.ts:6-15 | `/dashboard` and `/extension` are not public |
| Middleware.BarePrefixNotPublic | middleware.ts:15 | `/loginx` and `/api/publicity` are not public: a prefix needs a separator |
| MempoolApi.GenerateMock | app/lib/mempool.ts:23-39 | fastest fee in [80,119]; floors 10/5/1 hold; half-hour ≤ fastest−10, hour ≤ fastest−20, economy < fastest; minimum 1; size in [10,160]; pending in [5000,19999]; load in [10,89] |
| MempoolApi.MockFloorsThatBind | app/lib/mempool.ts:30-32 | the half-hour and hour floors never bind; the economy fee is 1 exactly when its unfloored value is ≤ 1 |
| MempoolApi.MockFeesNotAlwaysOrdered | app/lib/mempool.ts:30-31 | some draws give a half-hour fee below the hour fee |
| MempoolApi.MockFastestCoversRange | app/lib/mempool.ts:25 | every fastest fee in [80,119] is reachable |
| MempoolApi.GetMempoolData | app/lib/mempool.ts:44-81 | on success, fees are copied from the response with the minimum forced to 1; size in [40,119]; pending in [5000,34999]; load is the size capped at 100. On failure, the fixed fallback record |
| MempoolApi.FallbackFeesDecrease | app/lib/mempool.ts:68-79 | the fallback fees 25/20/15/10/1 strictly decrease |
| MempoolApi.MinimumFeeAlwaysOne | app/lib/mempool.ts:58 | whatever the response says, the reported minimum fee is 1 |
| TxIds.GenerateTxId | app/lib/opreturn.ts:43-47 | a txid has 64 characters, all in 0-9a-f |
| TxIds.HexValue | app/lib/opreturn.ts:45 | a hex character's value indexes that same character in the digit string |
| TxIds.DecodeGenerate | app/lib/opreturn.ts:43-47 | decoding a generated txid gives back the draws (round trip) |
| TxIds.GenerateInjective | app/lib/opreturn.ts:43-47 | different draws give different txids |
| OpReturnApi.MakeTx | app/lib/opreturn.ts:77-82 | one recent transaction: 64-hex txid, size in [10,89], protocol from the five-name list, minutesAgo in [0,59] |
| OpReturnApi.GenerateRecentTransactions | app/lib/opreturn.ts:68-86 | exactly `count` transactions, the k-th built from the k-th iteration's draws |
| OpReturnApi.ProtocolSharesSumTo100 | app/lib/opreturn.ts:99-105 | the protocol percentages sum to 100 |
| OpReturnApi.TopProtocols | app/lib/opreturn.ts:116-122 | same names and percentages as the protocol table, in the same order; each count in its row's range |
| OpReturnApi.GetOPReturnStats | app/lib/opreturn.ts:88-125 | volume = count × average size with both in range; averageSize = avgTxSize; change in [−20,20]; block space in [5,35]; stored 30–50 MiB; protocols sum to 100 and match topProtocols; 10 recent transactions; 15 history entries 14…0 days ago, each in [5000,14999] |
| OpReturnApi.DailyVolumeBounds | app/lib/opreturn.ts:89-91 | the daily volume lies in [200000, 4139931] |
| Common.DailySeries | app/lib/opreturn.ts:50-65 | the `for (i = days; i >= 0; i--)` history loop: days+1 entries, entry k is days−k days ago, its value is base plus the k-th draw, within [base, base+span) |
| DrivechainApi.ActiveOnly | app/lib/drivechain.ts:150 | the filter keeps at most as many chains as it is given |
| DrivechainApi.ActiveOnlyMembers | app/lib/drivechain.ts:150 | a chain is kept exactly when it is in the table and its status is active |
| DrivechainApi.FilterThenSum | app/lib/drivechain.ts:150-152 | summing users and tps over the filtered list equals summing over the whole table with non-active chains counted as zero |
| DrivechainApi.ActiveOnlyAppend | app/lib/drivechain.ts:150 | filtering distributes over concatenation |
| DrivechainApi.AllActiveKept | app/lib/drivechain.ts:150 | a list of active chains passes the filter unchanged |
| DrivechainApi.NonActiveContributesNothing | app/lib/drivechain.ts:138-150 | inserting a non-active chain (the developing one) anywhere leaves the filtered list, and so every total, unchanged |
| DrivechainApi.ActiveOfTable | app/lib/drivechain.ts:74-150 | of the eight table rows, the first seven are the active ones |
| DrivechainApi.TableTotals | app/lib/drivechain.ts:74-152 | the table has 8 chains, 7 active, 51250 active users, 138.5 tps |
| DrivechainApi.GenerateHistoricalData | app/lib/drivechain.ts:56-71 | 31 entries, 30…0 days ago, each in [50000,149999] |
| DrivechainApi.GetTransactionHistory | app/lib/drivechain.ts:30-46 | 31 entries, 30…0 days ago, each in [50000,149999] |
| DrivechainApi.GetDrivechainStats | app/lib/drivechain.ts:51-162 | the record carries the table; total 8 ≥ active 7; users and tps are the active-only sums (51250, 138.5); 31 history entries in [50000,149999] |
| MemecoinApi.MakeToken | app/lib/memecoin.ts:66-77 | name = ticker + " Token"; holders in [1000,50999]; supply in [1000000,1000999999]; block in [800000,849999]; price, cap, volume and change in their ranges |
| MemecoinApi.GetMemecoinsActivity | app/lib/memecoin.ts:56-87 | 10 tokens in ticker-list order; totals in [1000,1499], [50000,149999] and [10000,59999] |
| MemecoinApi.GetTokenCreationHistory | app/lib/memecoin.ts:89-108 | 31 entries, 30…0 days ago, each in [1,20] |
| MemecoinApi.ToUpperMeaning | app/lib/memecoin.ts:157 | a word of ASCII letters comes out all upper case; an upper-case word is unchanged; only lower-case letters are touched; upper-casing again changes nothing |
| MemecoinApi.ShortTicker | app/lib/memecoin.ts:157 | the short ticker has three characters, or the whole token when it is shorter |
| MemecoinApi.ShortTickerUpper | app/lib/memecoin.ts:157 | the short ticker of a word of letters, of either case, is upper case |
| MemecoinApi.ShortTickerIsPrefix | app/lib/memecoin.ts:157 | for an upper-case token the ticker is its first three letters |
| MemecoinApi.BitcoinShortTicker | app/lib/memecoin.ts:157 | BITCOIN gives BIT |
| MemecoinApi.ListedTickersAreUpper | app/lib/memecoin.ts:148 | every listed token is upper-case with at least four letters |
| MemecoinApi.MakeEvent | app/lib/memecoin.ts:153-180 | the event record of one iteration: it carries a price exactly when its type is list or sale |
| MemecoinApi.MakeEventFacts | app/lib/memecoin.ts:153-180 | token from the list, ticker its first three letters; price present iff the type is list or sale, then in [10,1010]; amount in [1000,100999]; minutesAgo in [0,59]; txid 64 hex characters |
| MemecoinApi.GenerateRecentActivity | app/lib/memecoin.ts:147-184 | exactly `count` events, the k-th built from the k-th iteration's draws |
| MemecoinApi.Drift | app/lib/memecoin.ts:135 | the daily factor lies in [0.9,1.1) |
| MemecoinApi.VolumeAt | app/lib/memecoin.ts:128-135 | the running volume stays positive |
| MemecoinApi.DailyDriftBounded | app/lib/memecoin.ts:135 | each day's volume is within −10%/+10% of the previous day's |
| MemecoinApi.GenerateVolumeHistory | app/lib/memecoin.ts:125-144 | days+1 entries, k-th is days−k days ago and the floor of the running volume after k+1 drifts, never negative |
| MemecoinApi.TopTokensTotal | app/lib/memecoin.ts:187-236 | the sum of the top tokens' volumes is 33,900,000 |
| MemecoinApi.GetMemecoinStats | app/lib/memecoin.ts:113-247 | totalTokens in [1000,1499]; newTokens24h in [5,24]; total volume = sum over topTokens = 33,900,000; change in [−10,10]; 15 events; 31 non-negative volume entries |
| Dashboard.Toggled | app/dashboard/page.tsx:77-79 | the toggled view mode differs from the current one |
| Dashboard.ToggleTwiceRestores | app/dashboard/page.tsx:77-79 | toggling the view mode twice gives the starting mode back |
| Dashboard.ExpandToggle | app/dashboard/page.tsx:152-154 | the result is empty iff the panel was already expanded, otherwise that panel |
| Dashboard.ExpandTwice | app/dashboard/page.tsx:152-154 | expanding the same panel twice closes it; of two different panels the second wins |
| Dashboard.DashboardPage.constructor | app/dashboard/page.tsx:33-39 | starts on the mempool panel, tabbed, not loaded, not refreshing, count 0, nothing expanded |
| Dashboard.DashboardPage.LoadTimerFired | app/dashboard/page.tsx:50-56 | contentLoaded becomes true; nothing else changes |
| Dashboard.DashboardPage.HandleRefresh | app/dashboard/page.tsx:59-68 | raises the indicator, adds exactly 1 to the count, stamps the time, schedules one reset; nothing else changes |
| Dashboard.DashboardPage.ResetTimerFired | app/dashboard/page.tsx:65-67 | lowers the indicator even if another reset is pending |
| Dashboard.DashboardPage.ClickRefresh | app/dashboard/page.tsx:306 | a click while refreshing changes nothing; otherwise it is a refresh |
| Dashboard.DashboardPage.AutoRefreshTick | app/dashboard/page.tsx:71-74 | the interval refreshes with no check of the indicator |
| Dashboard.DashboardPage.ToggleViewMode | app/dashboard/page.tsx:77-79 | switches the view mode and changes no other field |
| Dashboard.DashboardPage.HandlePanelExpand | app/dashboard/page.tsx:152-154 | clears the expansion if that panel was expanded, otherwise expands it; nothing else changes |
| Dashboard.DashboardPage.CloseOverlay | app/dashboard/page.tsx:454 | clears the expansion whatever it was |
| Dashboard.DashboardPage.SelectTab | app/dashboard/page.tsx:355 | selects one of the four navigation ids, never the 3D model |
| Dashboard.OverlappingRefreshes | app/dashboard/page.tsx:59-74 | a click then an auto-refresh counts 2, and the first reset lowers the indicator with a reset still pending |
| Dashboard.ToggleTwice | app/dashboard/page.tsx:77-79 | two toggles restore the mode and leave every other field (panel, expansion, refresh count, indicator, load flag, refresh time, pending resets) unchanged, and the page stays valid |
| Theme.Toggle | app/contexts/ThemeContext.tsx:70-72 | toggling changes the mode |
| Theme.ToggleTwice | app/contexts/ThemeContext.tsx:70-72 | toggling the mode twice gives the starting mode back |
| Theme.ThemeColor | app/contexts/ThemeContext.tsx:74-84 | every colour is a `#` followed by six characters |
| Theme.DarkDiffersFromLight | app/contexts/ThemeContext.tsx:74-84 | in every scheme the dark and light colours differ |
| Theme.DefaultColors | app/contexts/ThemeContext.tsx:76 | the default scheme is `#f7931a` dark and `#B3261E` light |
| Theme.RemoveToken | app/contexts/ThemeContext.tsx:48 | a class is present afterwards iff it was present and is not the removed one |
| Theme.AddToken | app/contexts/ThemeContext.tsx:49 | a class is present afterwards iff it was present or is the added one; an already present class leaves the list as is |
| Theme.ApplyModeClass | app/contexts/ThemeContext.tsx:48-49 | the swap adds at most one class, and the current mode's class ends up last in the list |
| Theme.ApplyModeClassMeaning | app/contexts/ThemeContext.tsx:45-50 | after the swap the mode's class is present, the other mode's is absent, and every other class is unchanged in membership |
| Theme.ApplyModeClassIdempotent | app/contexts/ThemeContext.tsx:45-50 | applying the same mode twice gives the same class list as once |
| Theme.ThemeProvider.constructor | app/contexts/ThemeContext.tsx:33-36 | starts dark, default scheme, unmounted (renders nothing), no overlay |
| Theme.ThemeProvider.Mount | app/contexts/ThemeContext.tsx:39-43 | the mode follows the system dark preference and the provider then renders |
| Theme.ThemeProvider.ApplyEffect | app/contexts/ThemeContext.tsx:45-54 | once mounted, the class list gets the mode swap and the colour property the scheme's colour; before mounting nothing happens |
| Theme.ThemeProvider.ToggleMode | app/contexts/ThemeContext.tsx:70-72 | flips the mode and nothing else |
| Theme.ThemeProvider.SetColorScheme | app/contexts/ThemeContext.tsx:34 | sets the scheme and nothing else |
| Theme.ThemeProvider.ThemeChangeEvent | app/contexts/ThemeContext.tsx:58-60 | raises the overlay flag and schedules its timer |
| Theme.ThemeProvider.ThemeTimerFired | app/contexts/ThemeContext.tsx:60 | lowers the overlay flag |
| Theme.ToggleAndApply | app/contexts/ThemeContext.tsx:45-72 | after a toggle and the effect, exactly the new mode's class is on the root |
| MempoolStatus.RecommendedFee | components/MempoolStatus.tsx:104-108 | the recommended fee is the rate the status names |
| MempoolStatus.RecommendedFeeMonotone | components/MempoolStatus.tsx:104-108 | with ordered rates a busier status never recommends less |
| MempoolStatus.BlockTarget | components/MempoolStatus.tsx:113 | "next block" is promised exactly for low congestion |
| MempoolStatus.StatusDescription | components/MempoolStatus.tsx:81-85 | "Ideal time for transactions" is shown exactly for low congestion |
| MempoolStatus.StatusTextsDistinct | components/MempoolStatus.tsx:81-85 | each status has its own description and block-target text |
| MempoolStatus.InitialHistory | components/MempoolStatus.tsx:16-19 | 24 entries with hour = index and size in [20,49] |
| MempoolStatus.TickRates | components/MempoolStatus.tsx:28-32 | high in [30,59], medium in [10,29], low in [1,10], hence high > medium ≥ low |
| MempoolStatus.MempoolPanel.constructor | components/MempoolStatus.tsx:8-20 | medium status, size 45, rates 45/15/5 (ordered), the drawn history |
| MempoolStatus.MempoolPanel.Tick | components/MempoolStatus.tsx:24-33 | size in [20,49], fresh ordered rates; status and history unchanged, so status stays medium |
| MempoolStatus.MempoolPanel.Recommended | components/MempoolStatus.tsx:104-108 | the shown fee is always the medium rate, below the high rate |
| OpReturnTracker.InitialSharesSumTo100 | components/OpReturnTracker.tsx:11-16 | the initial type shares sum to 100 |
| OpReturnTracker.TickShares | components/OpReturnTracker.tsx:31-34 | text in [30,49], images in [20,34], json in [10,19], other in [5,9]; their sum in [65,111] |
| OpReturnTracker.TickSharesRange | components/OpReturnTracker.tsx:31-34 | sums of 65 and 111 are both reachable, so a tick does not keep 100 |
| OpReturnTracker.InitialHistory | components/OpReturnTracker.tsx:17-20 | 24 entries with hour = index and percentage in [5,14] |
| OpReturnTracker.OpReturnPanel.constructor | components/OpReturnTracker.tsx:8-21 | 12.5%, 1245 transactions, shares summing to 100, the drawn history |
| OpReturnTracker.OpReturnPanel.Tick | components/OpReturnTracker.tsx:25-36 | block share in [5,14], transactions in [1000,1499], fresh shares; history unchanged |
| MemecoinTracker.TickUpdate | components/MemecoinTracker.tsx:25-30 | transactions grow by 0–999 and tokens by 0–9; volume moves in [−2.5,2.5), activity change in [−1,1) |
| MemecoinTracker.CountersNeverDecrease | components/MemecoinTracker.tsx:26-27 | over any run of ticks neither counter decreases |
| MemecoinTracker.VolumeFallsAtLowestDraw | components/MemecoinTracker.tsx:28 | at the lowest draw the volume falls by exactly 2.5 per tick |
| MemecoinTracker.VolumeCanGoNegative | components/MemecoinTracker.tsx:28 | fifty ticks can take the volume below zero |
| MemecoinTracker.MemecoinPanel.constructor | components/MemecoinTracker.tsx:15-20 | starts at 124578 / 245 / 124.5 / 12.4 |
| MemecoinTracker.MemecoinPanel.Tick | components/MemecoinTracker.tsx:24-31 | the new data is the tick update of the old |
| MemecoinTracker.SignPrefix | components/MemecoinTracker.tsx:45 | the prefix is `+` exactly for a positive change and empty otherwise |
| MemecoinTracker.ChangeColor | components/MemecoinTracker.tsx:107-108 | the colour is green exactly for a positive change and red otherwise |
| MemecoinTracker.SignAndColorAgree | components/MemecoinTracker.tsx:107-110 | `+` appears iff the colour is green iff the change is positive; zero shows no sign and red |
| MemecoinTracker.TypeSharesSumTo130 | components/MemecoinTracker.tsx:7-12 | the four shares shown as "% of total activity" sum to 130 |
| MemecoinTracker.TopCoinColors | components/MemecoinTracker.tsx:168-183 | in the fixed table exactly the three rising coins are green |
| DrivechainActivity.BarWidth | components/DrivechainActivity.tsx:58 | every activity bar width is a percentage in [0,100] |
| DrivechainActivity.ActivityPanel.constructor | components/DrivechainActivity.tsx:32 | the index starts at 0 |
| DrivechainActivity.ActivityPanel.Tick | components/DrivechainActivity.tsx:36-38 | the index becomes (prev+1) mod 3 and stays in [0,3) |
| DrivechainActivity.ActivityPanel.Hover | components/DrivechainActivity.tsx:81 | hovering card i sets the index to i |
| DrivechainActivity.ActivityPanel.Highlighted | components/DrivechainActivity.tsx:78-80 | exactly one card, the active one, is highlighted |
| DrivechainActivity.ThreeTicks | components/DrivechainActivity.tsx:37 | three ticks return to the starting card |
| Common.Next | components/DrivechainActivity.tsx:37 | (prev+1) mod n is in [0,n); it is 0 exactly after n−1; below n−1 it is prev+1 |
| Common.Advance | components/DrivechainActivity.tsx:36-38 | k ticks stay in range |
| Common.NoEarlyReturn | components/DrivechainActivity.tsx:36-38 | fewer than n ticks never bring an in-range index back to itself |
| Common.AdvanceWraps | components/DrivechainActivity.tsx:37 | up to a full cycle, k ticks add k and wrap once past n |
| Common.FullCycle | components/DrivechainActivity.tsx:37 | n ticks return to the start |
| Common.ActiveFlags | components/DrivechainActivity.tsx:78-80 | the i-th flag is set iff i is the active index |
| Common.ExactlyOneActive | components/DrivechainActivity.tsx:78-80 | an in-range active index flags exactly one item |
| Onboarding.FeatureColor | app/onboarding/page.tsx:214-216 | the colour is one of the feature's two colours; with no theme yet it is the light one |
| Onboarding.FeatureColorChoice | app/onboarding/page.tsx:214-216 | the dark colour is chosen iff the theme is `dark`; with no theme yet, the light one |
| Onboarding.OnboardingPage.constructor | app/onboarding/page.tsx:48 | the index starts at 0 |
| Onboarding.OnboardingPage.Tick | app/onboarding/page.tsx:55-60 | the index becomes (prev+1) mod 3 |
| Onboarding.OnboardingPage.SelectFeature | app/onboarding/page.tsx:191-194 | a tab click or card hover sets the index to that feature's index |
| Onboarding.OnboardingPage.ActiveTabs | app/onboarding/page.tsx:195 | exactly one tab, the active one, is styled active |
| Onboarding.OnboardingPage.ShowcaseColor | app/onboarding/page.tsx:229-234 | the colour is the active feature's dark or light colour |
| Onboarding.FullRotation | app/onboarding/page.tsx:57 | the features after the first and second ticks, which it returns, differ from the start and from each other; the third tick returns to the start |
| Landing.SectionAt | app/page.tsx:46-52 | for a non-negative window height, features exactly in [0.5·h, 1.5·h); a negative scroll is the hero |
| Landing.SectionBands | app/page.tsx:46-52 | hero iff scrollY < 0.5·h; features iff 0.5·h ≤ scrollY < 1.5·h; cta iff scrollY ≥ 1.5·h |
| Landing.SectionMonotone | app/page.tsx:46-52 | scrolling further never yields an earlier section |
| Landing.ScrollProgress | app/page.tsx:40-41 | progress never exceeds 1; with a non-zero divisor it is the ratio capped at 1, non-negative when scrolling a taller page; with a zero divisor it is 1, NaN or −∞ by the sign of scrollY |
| Landing.DivAtLeastOne | app/page.tsx:41 | a ratio over a positive divisor is at least 1 exactly when the dividend reaches the divisor |
| Landing.ProgressFull | app/page.tsx:40-41 | progress is 1 exactly when the scroll covers the scrollable height |
| Landing.HomePage.constructor | app/page.tsx:31-32 | starts in the hero section with progress 0 |
| Landing.HomePage.HandleScroll | app/page.tsx:36-53 | the new progress and section are those of the event's measurements |
| FeaturePanel.Panel.constructor | app/components/FeaturePanel.tsx:31-32 | no active feature, not animating |
| FeaturePanel.Panel.Click | app/components/FeaturePanel.tsx:35-59 | clicking the committed feature changes nothing; otherwise animation starts, the body class becomes `theme-` + feature, and a timer is scheduled; the active feature is unchanged; only the table's feature keys can be clicked |
| FeaturePanel.Panel.TimerFired | app/components/FeaturePanel.tsx:55-58 | the earliest timer's feature becomes active, the animation ends, and the content is visible |
| FeaturePanel.ClickActiveIsNoOp | app/components/FeaturePanel.tsx:36 | a click on the committed feature changes no field |
| FeaturePanel.ReclickBeforeTimer | app/components/FeaturePanel.tsx:36 | re-clicking a feature whose timer has not fired schedules a second timer |
| FeaturePanel.FirstTimerShowsFirstFeature | app/components/FeaturePanel.tsx:35-58 | after two quick clicks on different features, the first timer makes the first feature active and visible while the body carries the second's class, with the second timer still pending |
| FeaturePanel.LastTimerWins | app/components/FeaturePanel.tsx:55-58 | after the same clicks, the last timer decides: the second feature is active, matching the body class, and no timer is pending |

## Left out

- Canvas animations, three.js models, Clerk sign-in screens and pure presentation components: they are rendering, a foreign library or third-party session handling, with no state logic beyond what is modelled.
- The middleware's `config.matcher` pattern (middleware.ts:36): its meaning belongs to the framework's path matcher, which is not part of this model.
- The fee request to mempool.space is the `Fetch` input; the HTTP call, its latency and the logged error are not modelled.
- `Math.random` is not modelled: each draw is a parameter constrained to its range.
- Dates and their formatting (`setDate`, `toISOString`, `toLocaleTimeString`) are not modelled: day offsets and minute offsets stand for them.
- `toFixed`/`parseFloat` are drawn as already-rounded integers: IEEE rounding of the scaled random value is not modelled.
- MempoolApi.GetMempoolData: the load is stated as `min(100, size)`. The source computes `Math.floor((size / 100) * 100)` in floating point, which can give one less (57 gives 56). So the exact-equality clause is stronger than the source, and the range [40,100] is what it guarantees.
- MemecoinApi.GenerateVolumeHistory: the running volume is an exact real. Floating-point error in the repeated products is not modelled.
- MemecoinTracker.TickUpdate: volume and activity change are exact reals; float accumulation error over many ticks is not modelled.
- Timers and intervals are event methods that the caller invokes. Real-time ordering between different timers is not modelled: a scenario chooses the order. Clearing timers on unmount is not modelled.
- Dashboard: `formattedTime`, `modelError` and the `useUser` sign-in gating are left out. So are the window-error boundary, the router push to the extension page, and the per-panel colour tables.
- FeaturePanel: the ripple elements (app/components/FeaturePanel.tsx:42-53) and the intersection observer (61-76) are DOM side effects.
- Theme: the overlay animation and the library's own theme provider are rendering. The `--theme-color` property is only recorded as the last value set.
- Onboarding: the theme name comes from the theme library as an optional string. The scroll-linked parallax values are rendering.
- MemecoinApi.ToUpper: models `toUpperCase` on ASCII letters only; other scripts' case mappings (and length-changing ones such as `ß`) are not modelled, since every ticker is ASCII.
- Landing.ScrollProgress: besides the zero divisor, no other IEEE special case is modelled: negative zero, or infinite window sizes.

newTokens24h carries the inline comment "5-25", but its draw `Math.floor(Math.random() * 20) + 5` tops out at 24 (app/lib/memecoin.ts:240). The model follows the code: `GetMemecoinStats` ensures [5,24]. The other range comments ("80-120", "10-90%", "1000-1500") are likewise exclusive at the top, and the model states the inclusive bounds the code reaches.
