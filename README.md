# SIUBLINX front-end logic in Dafny

SIUBLINX is a demo front end for an underground electronic-music scene:
- an event map with a "secret mode";
- a personalised feed;
- two marketplaces;
- a challenge and reward screen;
- an invite-request screen;
- a user profile.

Everything runs on in-memory mock data. The only rule that spans the whole
application is the plan table (free, premium, pro) and the capability checks
that gate selling, check-in and invite requests.

This project models the decision and data logic of those screens:
- the plan table and its lookups (module `Plans`);
- the demo login with its session record in browser storage (`Auth`);
- the two plan gates the views share (`Gates`);
- the filter, search, sort and like toggle of the sortable marketplace (`OptimizedMarketplace`);
- the same for the simpler marketplace (`AlternativeMarketplace`);
- the event filter with secret mode, the side statistics and the invite gate (`EventMap`);
- the like, check-in and audio toggles of the feed (`PersonalizedFeed`);
- challenge claiming, the active count, the leaderboard lookup and the reward button (`Gamification`);
- the request list with approve, reject and send, and the view choice (`InviteRequests`);
- the level table, avatar lookup and defaults of the profile (`UserProfile`);
- the load and error state machine of the image wrapper (`ImageFallback`).

Three helper modules hold what the views share:
- `Lists` has JavaScript's `map`-with-a-ternary, `filter` and `find`;
- `Text` has `toLowerCase`, `includes` and `trim`;
- `StableSort` has the stable `Array.prototype.sort`.

Every React component whose handlers change state is a `class`. Its fields
are the component's `useState` variables, and each handler is a `method`
whose `ensures` gives the new state. The new state is written in terms of
pure functions. The properties of those functions are proved as lemmas:
- a toggle applied twice is the identity;
- only the matching record changes, and only in the fields the handler names;
- a sort is ordered, stable and a permutation;
- filters only remove, and widening a filter only adds;
- each gate's outcome is given per plan.

The like and check-in toggles do not clamp their counters at zero: un-liking
a record whose count is already 0 gives -1. The lemmas state the plain
`+1` / `-1` step.

The sortable marketplace sorts with `a.price - b.price` and similar
comparators. A comparator of this form is the difference of an integer key.
`OptimizedMarketplace.CompareIsKeyDifference` proves this for all five
comparators. Sorting with it is therefore a stable sort by that key.
Stability is what ECMA-262 requires of `Array.prototype.sort` (section
23.1.3.30 of the 2023 edition).

## Model

| member | source | states |
|---|---|---|
| Plans.GetPlanById | lib/plans.ts:79-81 | the result is a row of the table; a known id finds its own row, any other id falls back to the first (free) row |
| Plans.CanUserPerformAction | lib/plans.ts:83-86 | the answer is the plan's own capability flag, and every plan id other than premium and pro is denied |
| Plans.GetUserLimit | lib/plans.ts:88-91 | the raw stored value: for each of the three numeric keys, that key's number in the plan's limits; for the four boolean keys, the capability flag |
| Plans.PlanIdsDistinct | lib/plans.ts:17-77 | the three plan ids are pairwise distinct |
| Plans.GetPlanByIdRows | lib/plans.ts:79-81 | "free", "premium" and "pro" find their own rows; any other id yields the free row |
| Plans.CapabilitiesPerPlan | lib/plans.ts:24-32 | free grants none of the four capabilities; premium and pro grant all four |
| Plans.CapabilitiesMonotone | lib/plans.ts:45-53 | free's capabilities are included in premium's; premium and pro grant the same ones |
| Plans.NumericLimitsPerPlan | lib/plans.ts:67-75 | limits are 0/0/0 for free, 5/50/10 for premium and -1 (unlimited) for pro |
| Auth.WithoutPassword | lib/auth.ts:71 | the session record carries every account field except the password |
| Auth.Authenticate | lib/auth.ts:68-70 | login succeeds exactly when the e-mail is a key of the demo table and the password equals that account's |
| Auth.DemoLogins | lib/auth.ts:26-47 | admin and alex log in (pro and free plans); a wrong password, a differently cased e-mail and the guest credentials fail |
| Auth.AuthProvider.LoadStoredSession | lib/auth.ts:53-60 | a stored record becomes the user verbatim, and loading ends |
| Auth.AuthProvider.Login | lib/auth.ts:62-80 | a successful login sets the user and writes it under "sublinx_user"; a failed one changes neither |
| Auth.AuthProvider.Logout | lib/auth.ts:82-85 | logout clears the user and removes the stored record |
| Auth.LogoutTwice | lib/auth.ts:82-85 | logging out twice leaves the same state as logging out once |
| Auth.LoginThenRestart | lib/auth.ts:53-75 | the record written by a successful login is what the next startup loads |
| Gates.SellBlockedIff | components/optimized-marketplace.tsx:432-437 | selling is blocked exactly without a user or on any plan other than premium and pro |
| Gates.InviteGateFor | components/event-map.tsx:139-151 | the gate proceeds only for a user whose plan grants `canAcceptInvites` |
| Gates.InviteGatePerPlan | components/personalized-feed.tsx:192-202 | no user and free open the invite system; premium and pro proceed; only an unknown plan id reaches the upgrade prompt |
| Lists.FilterMultiset | components/optimized-marketplace.tsx:384-392 | `filter` keeps each passing element with its multiplicity and drops every other one |
| Lists.FilterIsSubsequence | components/optimized-marketplace.tsx:384-392 | `filter` keeps the order of what it keeps |
| Text.ToLowerIdempotent | components/optimized-marketplace.tsx:387-390 | lower-casing twice is lower-casing once |
| Text.ContainsEmpty | components/optimized-marketplace.tsx:387-390 | every string includes the empty query |
| Text.BlankIffAllWhiteSpace | components/invite-request-system.tsx:104 | `trim()` is empty exactly when every character is white space |
| StableSort.SortPermutes | components/optimized-marketplace.tsx:394-410 | the sorted list is a permutation of its input |
| StableSort.SortIsSorted | components/optimized-marketplace.tsx:394-410 | the sorted list is ordered by the key |
| StableSort.SortIsStable | components/optimized-marketplace.tsx:394-410 | elements with equal keys keep their input order |
| StableSort.SortOfSorted | components/optimized-marketplace.tsx:394-410 | an already ordered list is returned unchanged |
| OptimizedMarketplace.FilterItems | components/optimized-marketplace.tsx:384-392 | a listing is kept exactly when it is in the store and passes the category and the case-insensitive search over name, description, tags and seller; store order is kept |
| OptimizedMarketplace.ParseSortBy | components/optimized-marketplace.tsx:394-410 | exactly the five case strings select a sort |
| OptimizedMarketplace.CompareIsKeyDifference | components/optimized-marketplace.tsx:396-408 | each comparator is the difference of an integer key |
| OptimizedMarketplace.FilteredItems | components/optimized-marketplace.tsx:383-413 | the shown list is a permutation of the filtered list, and an unknown `sortBy` leaves the filter order |
| OptimizedMarketplace.FilteredItemsMembers | components/optimized-marketplace.tsx:383-413 | a listing is shown exactly when it is stored and passes the filter |
| OptimizedMarketplace.NoFiltersIsPermutation | components/optimized-marketplace.tsx:385-390 | with "all" and an empty query the shown list is a permutation of the whole store |
| OptimizedMarketplace.SortedForComparator | components/optimized-marketplace.tsx:394-410 | after any of the five sorts no pair is out of order for its comparator |
| OptimizedMarketplace.PriceLowAscending | components/optimized-marketplace.tsx:398-400 | "price-low" is non-decreasing in price |
| OptimizedMarketplace.PriceHighDescending | components/optimized-marketplace.tsx:401-403 | "price-high" is non-increasing in price |
| OptimizedMarketplace.PopularDescending | components/optimized-marketplace.tsx:404-406 | "popular" is non-increasing in likes |
| OptimizedMarketplace.RecentNewestFirst | components/optimized-marketplace.tsx:407-409 | "recent" puts later posting days first |
| OptimizedMarketplace.FeaturedFirst | components/optimized-marketplace.tsx:395-397 | "featured" puts every featured listing before every other one |
| OptimizedMarketplace.EqualKeysKeepFilterOrder | components/optimized-marketplace.tsx:394-410 | listings the comparator ranks equal keep their filter order |
| OptimizedMarketplace.ToggleLikeEffect | components/optimized-marketplace.tsx:415-430 | only listings with the id change: the flag flips and likes move by one without a floor; views, watchers and every other field are kept |
| OptimizedMarketplace.ToggleLikeUnknownId | components/optimized-marketplace.tsx:415-430 | an id no listing has changes nothing |
| OptimizedMarketplace.ToggleLikeTwice | components/optimized-marketplace.tsx:415-430 | toggling the same listing twice restores the list |
| OptimizedMarketplace.Marketplace.ToggleLike | components/optimized-marketplace.tsx:415-430 | the stored listings become the toggled list |
| OptimizedMarketplace.Marketplace.SetSearchQuery | components/optimized-marketplace.tsx:476 | the search box sets the query to the typed text |
| OptimizedMarketplace.Marketplace.SetCategory | components/optimized-marketplace.tsx:502 | a category button sets the selected category to its id |
| OptimizedMarketplace.Marketplace.SetSortBy | components/optimized-marketplace.tsx:483 | the sort selector sets the sort option to the chosen value |
| OptimizedMarketplace.Marketplace.HandleSellAction | components/optimized-marketplace.tsx:432-437 | the upgrade prompt opens with its reason exactly when selling is blocked; otherwise nothing changes |
| OptimizedMarketplace.BassSearchScenario | components/optimized-marketplace.tsx:386-390 | a query lowering to "bass" finds a listing tagged "Drum & Bass" and not one named "Cyber Pulse" |
| OptimizedMarketplace.BassCasings | components/optimized-marketplace.tsx:387 | "bass", "BASS" and "Bass" lower to the same query |
| OptimizedMarketplace.PriceSortScenario | components/optimized-marketplace.tsx:398-403 | prices 350, 120, 500 sort to 120, 350, 500 ascending and 500, 350, 120 descending |
| AlternativeMarketplace.FilterItems | components/alternative-marketplace.tsx:171-178 | a listing is kept exactly when it passes the category and the search over name, description and tags; the result is an order-keeping sub-list of the store |
| AlternativeMarketplace.SellerNotSearched | components/alternative-marketplace.tsx:173-176 | the seller's name never affects whether a listing passes |
| AlternativeMarketplace.ClearedFiltersShowAll | components/alternative-marketplace.tsx:544-547 | after clearing the filters the whole store is listed in order |
| AlternativeMarketplace.ToggleLikeEffect | components/alternative-marketplace.tsx:180-195 | only listings with the id change, and only in their like flag and count |
| AlternativeMarketplace.ToggleLikeUnknownId | components/alternative-marketplace.tsx:180-195 | an id no listing has changes nothing |
| AlternativeMarketplace.ToggleLikeTwice | components/alternative-marketplace.tsx:180-195 | toggling twice restores the list |
| AlternativeMarketplace.ToggleLikeCommutesWithFilter | components/alternative-marketplace.tsx:171-195 | toggling then filtering equals filtering then toggling |
| AlternativeMarketplace.ResultBranchesPartition | components/alternative-marketplace.tsx:527-539 | exactly one of "load more" and "no items" renders |
| AlternativeMarketplace.NoItemsAfterClear | components/alternative-marketplace.tsx:539-547 | after clearing, the "no items" notice stays only for an empty store |
| AlternativeMarketplace.Marketplace.ClearFilters | components/alternative-marketplace.tsx:544-547 | both filters return to their defaults and the shown list is the whole store |
| AlternativeMarketplace.Marketplace.SetSearchQuery | components/alternative-marketplace.tsx:256 | the search box sets the query to the typed text |
| AlternativeMarketplace.Marketplace.SetCategory | components/alternative-marketplace.tsx:269 | a category button sets the selected category to its id |
| AlternativeMarketplace.Marketplace.ToggleLike | components/alternative-marketplace.tsx:180-195 | the stored listings become the toggled list, whose effect `AlternativeMarketplace.ToggleLikeEffect` states |
| AlternativeMarketplace.Marketplace.HandleSellAction | components/alternative-marketplace.tsx:216-223 | the upgrade prompt opens with its reason exactly when selling is blocked |
| EventMap.ShownIff | components/event-map.tsx:113-119 | the chain of early returns is the conjunction of the secret, genre, type and distance tests |
| EventMap.FilteredEvents | components/event-map.tsx:113-119 | an event is listed exactly when it is stored and passes; store order is kept |
| EventMap.NoSecretWithoutSecretMode | components/event-map.tsx:114 | without secret mode no secret event is listed |
| EventMap.SecretModeWidens | components/event-map.tsx:114 | turning secret mode on removes nothing and keeps the order |
| EventMap.LargerDistanceWidens | components/event-map.tsx:117 | raising the distance limit removes nothing and keeps the order |
| EventMap.DefaultShown | components/event-map.tsx:27-93 | with the default filters events 1 and 3 pass and events 2, 4 and 5 do not |
| EventMap.DefaultView | components/event-map.tsx:100-119 | the first screen lists exactly events 1 and 3, in that order |
| EventMap.CountsAddUp | components/event-map.tsx:383-387 | the public and secret counts add up to the number listed |
| EventMap.CountsWithoutSecretMode | components/event-map.tsx:383-387 | without secret mode the secret count is 0 and the public count is the whole list |
| EventMap.TotalSplits | components/event-map.tsx:391 | the attendee total is the public total plus the secret total |
| EventMap.TotalMonotone | components/event-map.tsx:391 | with non-negative attendance, an order-keeping sub-list never has the larger total |
| EventMap.SecretModeRaisesTotal | components/event-map.tsx:391 | with non-negative attendance, turning secret mode on never lowers the attendee total |
| EventMap.EventMapView.ToggleSecretMode | components/event-map.tsx:174 | the secret-mode flag flips |
| EventMap.EventMapView.SetGenre | components/event-map.tsx:196 | only the genre filter changes |
| EventMap.EventMapView.SetType | components/event-map.tsx:211 | only the type filter changes |
| EventMap.EventMapView.SetMaxDistance | components/event-map.tsx:231 | only the distance limit changes |
| EventMap.EventMapView.HandleInviteRequest | components/event-map.tsx:139-151 | the gate outcome with its effect: invite system opened, upgrade prompt with its reason, or no state change |
| PersonalizedFeed.ToggleLikeEffect | components/personalized-feed.tsx:175-190 | only events with the id change, only in the like flag and count; check-in fields are never touched |
| PersonalizedFeed.ToggleLikeUnknownId | components/personalized-feed.tsx:175-190 | an unknown id changes nothing |
| PersonalizedFeed.ToggleLikeTwice | components/personalized-feed.tsx:175-190 | liking twice restores the list |
| PersonalizedFeed.ToggleCheckinEffect | components/personalized-feed.tsx:204-217 | only events with the id change, only in the check-in flag and count; like fields are never touched |
| PersonalizedFeed.ToggleCheckinUnknownId | components/personalized-feed.tsx:204-217 | an unknown id changes nothing |
| PersonalizedFeed.ToggleCheckinTwice | components/personalized-feed.tsx:204-217 | checking in twice restores the list |
| PersonalizedFeed.LikeAndCheckinCommute | components/personalized-feed.tsx:175-217 | a like and a check-in can be applied in either order |
| PersonalizedFeed.NextPlaying | components/personalized-feed.tsx:220-226 | the same id stops the preview; any other id starts it |
| PersonalizedFeed.AudioTwiceFromSilence | components/personalized-feed.tsx:220-226 | from silence, pressing the same preview twice is silence again |
| PersonalizedFeed.Feed.ToggleCheckin | components/personalized-feed.tsx:192-218 | the gate outcome with its effect; the events change only when the gate proceeds |
| PersonalizedFeed.Feed.ToggleAudio | components/personalized-feed.tsx:220-226 | the playing preview becomes the next one |
| PersonalizedFeed.Feed.ToggleLike | components/personalized-feed.tsx:175-190 | the stored events become the like-toggled list, whose effect `PersonalizedFeed.ToggleLikeEffect` states |
| PersonalizedFeed.Feed.Listed | components/personalized-feed.tsx:256 | the feed lists every stored event at its own position: no filter and no reordering |
| Gamification.ClaimEffect | components/gamification-system.tsx:223-231 | only a challenge with the id and full progress changes, and only to completed; none is ever un-completed |
| Gamification.ClaimNoEligible | components/gamification-system.tsx:226-228 | an unknown id or short progress changes nothing |
| Gamification.ClaimIdempotent | components/gamification-system.tsx:223-231 | claiming twice is claiming once |
| Gamification.MockClaimsAreNoOps | components/gamification-system.tsx:48-97 | no mock challenge has full progress, so every claim on the mock list changes nothing |
| Gamification.ActiveCount | components/gamification-system.tsx:276 | the active count never exceeds the number of challenges |
| Gamification.ClaimActiveCount | components/gamification-system.tsx:223-231 | a claim lowers the active count by exactly the number of challenges it completes |
| Gamification.ClaimableCount | components/gamification-system.tsx:223-231 | with distinct ids, a claimable challenge is the only one a claim completes |
| Gamification.ClaimLowersActiveByOne | components/gamification-system.tsx:276 | with distinct ids, claiming a full, uncompleted challenge lowers the active count by one |
| Gamification.ClaimHidesButton | components/gamification-system.tsx:363 | pressing a shown claim button completes the challenge and its button disappears |
| Gamification.FindEntry | components/gamification-system.tsx:190 | without a user nothing matches; with a user, none exactly when no entry carries the name, otherwise the first entry that does |
| Gamification.UserRank | components/gamification-system.tsx:190 | no entry shows 47, an entry with rank 0 shows 47, an entry with a nonzero rank shows that rank |
| Gamification.UserWeeklyPoints | components/gamification-system.tsx:191 | no entry shows 180, an entry with 0 weekly points shows 180, an entry with nonzero points shows them |
| Gamification.LookupIsFirstMatch | components/gamification-system.tsx:190-191 | for any board, rank and weekly points are those of the first entry with the user's name, 0 replaced by 47 / 180 |
| Gamification.MockLeaderboardLookups | components/gamification-system.tsx:99-140 | CyberRaver is rank 1 with 850; "Alex" finds an entry of rank 47 with 180, the same values no user falls back to |
| Gamification.EffectivePoints | components/gamification-system.tsx:479 | no user, or 0 points, counts as 1250 |
| Gamification.RewardLabel | components/gamification-system.tsx:487-491 | "Indisponível" exactly when unavailable; "Pontos Insuficientes" exactly when available but unaffordable; "Resgatar" exactly when enabled |
| Gamification.RewardMonotone | components/gamification-system.tsx:479 | from a non-zero balance, more points never disable a reward |
| Gamification.ZeroBalanceDrop | components/gamification-system.tsx:479 | a balance of 0 counts as 1250: the 500-point reward is redeemable at 0 points and not at 1 |
| Gamification.DefaultPointsRewards | components/gamification-system.tsx:142-183 | with 1250 points the three available mock rewards are redeemable and the unavailable one is not |
| Gamification.GamificationView.ClaimChallenge | components/gamification-system.tsx:223-231 | the challenges become the claimed list |
| Gamification.GamificationView.SelectTab | components/gamification-system.tsx:283 | the tab bar sets the selected tab to the chosen value |
| InviteRequests.SetStatusEffect | components/invite-request-system.tsx:93-101 | only the status of requests with the id changes; length, order and other fields are kept |
| InviteRequests.SetStatusUnknownId | components/invite-request-system.tsx:93-101 | an unknown id changes nothing |
| InviteRequests.ApproveIdempotent | components/invite-request-system.tsx:93-96 | approving twice is approving once |
| InviteRequests.LaterDecisionWins | components/invite-request-system.tsx:93-101 | neither handler checks the status, so the later decision replaces the earlier one |
| InviteRequests.RequesterName | components/invite-request-system.tsx:114 | no user, or an empty name, gives "Usuário" |
| InviteRequests.NewRequest | components/invite-request-system.tsx:109-119 | the new request is pending, for the event, with the message and the fixed placeholder fields |
| InviteRequests.OrganizerView | components/invite-request-system.tsx:137 | the organizer view shows for every plan except free, and also without a user |
| InviteRequests.ApprovedRequest | components/invite-request-system.tsx:227 | the first approved request for event "2" in the list, and none exactly when there is no such request |
| InviteRequests.MockApprovedRequest | components/invite-request-system.tsx:41-64 | no approved request for event "2" in the mock list; approving request "1" makes it that request |
| InviteRequests.InviteSystem.HandleApproveRequest | components/invite-request-system.tsx:93-96 | the requests become the approved list |
| InviteRequests.InviteSystem.HandleRejectRequest | components/invite-request-system.tsx:98-101 | the requests become the rejected list |
| InviteRequests.InviteSystem.HandleSendInviteRequest | components/invite-request-system.tsx:103-124 | a blank message changes nothing; otherwise the new request goes first and the box is cleared |
| InviteRequests.InviteSystem.HandleSendMessage | components/invite-request-system.tsx:130-134 | a blank chat message changes nothing; otherwise the box is cleared |
| InviteRequests.InviteSystem.SetRequestMessage | components/invite-request-system.tsx:240 | the request box holds the typed text |
| InviteRequests.InviteSystem.SetChatMessage | components/invite-request-system.tsx:373 | the chat box holds the typed text |
| InviteRequests.SendThenInspect | components/invite-request-system.tsx:103-124 | from a fresh screen, a message is sent exactly when it has a non-white-space character, and then heads the list as pending |
| UserProfile.GetLevelInfo | components/user-profile.tsx:128-136 | levels 1 to 4 get their own row, higher levels the last row, and level 0 or below falls back to the first row |
| UserProfile.LevelNames | components/user-profile.tsx:128-136 | 1 Novato, 2 Explorador, 3 Veterano, 4 or more Lenda, 0 or below Novato |
| UserProfile.LevelInfoMonotone | components/user-profile.tsx:135 | a higher level never shows an earlier row, including levels below 1 that fall back to the first |
| UserProfile.AvatarUrl | components/user-profile.tsx:162 | a skin id shows its own url, and any other id shows the placeholder |
| UserProfile.AvatarUrls | components/user-profile.tsx:40-45 | the four skins show their own images, and an id outside the table shows the placeholder |
| UserProfile.SkinUrl | components/user-profile.tsx:162 | every skin in the table shows its own url |
| UserProfile.ShownLevel | components/user-profile.tsx:113 | no user, or level 0, shows 3 |
| UserProfile.ShownPoints | components/user-profile.tsx:114 | no user, or 0 points, shows 1250 |
| UserProfile.ShownBadges | components/user-profile.tsx:113-138 | without a user the badge reads Veterano; level 10 reads Lenda |
| UserProfile.Profile.PickSkin | components/user-profile.tsx:237-239 | picking a skin selects it, closes the selector and shows its image |
| UserProfile.Profile.ShownAvatar | components/user-profile.tsx:162 | the large avatar is the selected skin's image; an id outside the table shows the placeholder |
| UserProfile.Profile.ToggleAvatarSelector | components/user-profile.tsx:169 | the selector flag flips |
| UserProfile.Profile.CloseAvatarSelector | components/user-profile.tsx:229 | the selector closes |
| UserProfile.Profile.ToggleEditing | components/user-profile.tsx:150 | the editing flag flips |
| ImageFallback.FallbackOf | components/ui/image-with-fallback.tsx:23 | an absent fallback prop takes "/cyberpunk-neon-abstract.png" |
| ImageFallback.Initial | components/ui/image-with-fallback.tsx:26-28 | loading, no error, showing `src` |
| ImageFallback.AfterError | components/ui/image-with-fallback.tsx:30-36 | the first error switches to the fallback and stops loading; a later one changes nothing |
| ImageFallback.AfterLoad | components/ui/image-with-fallback.tsx:38-40 | only the loading flag changes |
| ImageFallback.StepKeepsConsistent | components/ui/image-with-fallback.tsx:30-40 | both handlers keep the state's invariant |
| ImageFallback.ErrorOnce | components/ui/image-with-fallback.tsx:31 | a second error changes nothing |
| ImageFallback.RunFromConsistent | components/ui/image-with-fallback.tsx:26-40 | any sequence of events keeps the invariant, and once an error is reported the fallback stays |
| ImageFallback.RunFromInitial | components/ui/image-with-fallback.tsx:26-40 | from the first render, the error flag is set exactly when some event failed, and the image shows the fallback exactly then |
| ImageFallback.RenderedSrc | components/ui/image-with-fallback.tsx:51 | an empty current source renders the placeholder |
| ImageFallback.OverlayIffError | components/ui/image-with-fallback.tsx:64 | in a reachable state the overlay shows exactly when an error was reported |
| ImageFallback.ImageWithFallback.HandleError | components/ui/image-with-fallback.tsx:30-36 | the fields become the error step of the old state, and the invariant holds |
| ImageFallback.ImageWithFallback.HandleLoad | components/ui/image-with-fallback.tsx:38-40 | the fields become the load step of the old state, and the invariant holds |

## Left out

- Rendering, styling and colour lookups (`getCategoryColor`, `getRarityColor`, icons, class names) are not modelled: they only choose presentation.
- `alert` notices are not modelled. In the model each one is a branch that changes no state: the sell, invite, buy-ticket and chat notices, and the event-details and chat panels of the invite screen.
- Timers are not modelled: the one-second delay of `login`, and React's batching and scheduling of state updates. A handler is one atomic step.
- Browser storage is a map from key to an already parsed record, so `JSON.parse` and `JSON.stringify` are not modelled; a stored record that does not parse is out of scope.
- The id of a new invite request comes from the clock (`Date.now()`). Here it is a parameter of `InviteSystem.HandleSendInviteRequest`.
- Prices are integers, and the plan prices are reals. Event distances are whole tenths of a kilometre, since every mock distance has one decimal. Floating-point arithmetic is not modelled.
- Posting dates are whole day numbers rather than date strings. The `new Date(...)` parsing in the "recent" sort is not modelled: `OptimizedMarketplace.RecentNewestFirst` orders by that number.
- `Text.ToLower` lowers only ASCII letters. Full Unicode case mapping is not modelled.
- `OptimizedMarketplace.FilteredItems`: the in-place `sort` of the freshly filtered copy is modelled as a function on sequences. The copy is local to the memo, so no aliasing is lost.
- Gamification.RewardMonotone: stated only from a non-zero balance. The source reads `user?.points || 1250`, so going from 0 points to 1 lowers the effective balance from 1250 to 1 and can disable a reward; `Gamification.ZeroBalanceDrop` states that drop.
- `Plans.CanUserPerformAction`: only the four boolean keys are accepted, which is how every caller uses it. Calling it with a numeric key (a number cast to boolean) is not modelled.
- The width, height and priority props of the image wrapper are passed straight to the image element and are not modelled.
- The guest button of the welcome screen logs in with credentials that are not in the demo table. So `Auth.Authenticate` refuses it, and `Auth.DemoLogins` states that it fails. The welcome screen itself is not part of this model.
- The profile's bio, music preferences, photo list and fixed statistics are display constants and are not modelled.
- The mock data of the marketplaces and the feed are not modelled: every lemma about those views holds for any store. The mock data of the event map, the gamification screen, the invite screen and the profile is written out.
