# BusinessWeb interactive components in Dafny

This project models the interactive parts of the BusinessWeb marketing site and proves properties about them. The site is a React front end; the model covers the logic in its components:

- **ChaosCanvas**: a canvas particle system. Labelled "fragments" drift chaotically at the top of the page and settle into a 3 x 2 grid of clusters as the scroll progress goes from 0 to 1. The model covers:
  - fragment creation;
  - the per-frame update (drift, pull toward the target, toroidal wrap, pointer repulsion, speed clamp);
  - the two connection layers;
  - target recomputation on resize.
- **CaseStudies** and **Testimonials**: two carousels with next/previous arrows, dot navigation and, for the testimonials, a six-second autoplay and avatar initials taken from a person's name.
- **AgentFeed**: a rolling window of four agent actions out of eight.
- **DataFlowLines**: dots running along quadratic Bezier curves between six dashboard panels.
- **LivingDashboard** and **Stats**: an animated counter that counts up to a figure, and the bar and area mini-charts of the dashboard.
- **Footer**: the anchor targets of the "Company" links.

Layout:

| file | module | contents |
|---|---|---|
| `arith.dfy` | `Arith` | small real-arithmetic lemmas (products, squares, quotients) |
| `geometry.dfy` | `Geometry` | points, squared norm and distance, the square root passed as a parameter |
| `chaos_canvas.dfy` | `ChaosCanvas` | fragments, the frame update as functions, the `Animator` class over an `array<Fragment>` |
| `cyclic.dfy` | `Cyclic` | successor and predecessor on a ring of `n` slides, shared by both carousels |
| `case_studies.dfy` | `CaseStudies` | the case-study carousel (`Slide` value, `Carousel` class) |
| `testimonials.dfy` | `Testimonials` | the testimonial rotator (`Rotator` class) and the initials string function |
| `agent_feed.dfy` | `AgentFeed` | the four-row window (`Feed` class) |
| `data_flow_lines.dfy` | `DataFlowLines` | curves, dots and the `Flow` class over an `array<Dot>` |
| `counting.dfy` | `Counting` | the animated counter shared by the dashboard and the statistics section |
| `living_dashboard.dfy` | `LivingDashboard` | dashboard counters, sparkline scale, bars, area points and paths |
| `stats.dfy` | `Stats` | the statistics counters and their `duration` parameter |
| `footer.dfy` | `Footer` | link slugs and link targets |

Modelling conventions:

- Numbers are exact `real`s, not IEEE doubles.
- `Math.random()` samples become parameters in [0, 1). For a fragment they are bundled in a `Draws` record, in the order `createFragments` draws them.
- `Math.sqrt` becomes a parameter `sqrt: real -> real`. Lemmas that need its meaning require `IsSqrt(sqrt)`: for x >= 0, sqrt(x) >= 0 and sqrt(x)^2 == x.
- Timers and animation frames become method calls: `Step`, `Animate`, `Tick`.
- Component state updated in place becomes a class, with the updates as `modifies` methods.

Two details of the code worth noting:

- Initial velocities are drawn from [-2, 2): the upper end is never reached, because `Math.random()` is below 1.
- The chaotic connection layer pairs every third fragment i (i % 3 == 0) only with fragments j > i such that j % 3 == 1.

## Model

| member | source | states |
|---|---|---|
| Geometry.RootBelow | src/components/ChaosCanvas.tsx:249-250 | under `IsSqrt`, the distance test `sqrt(q) < limit` holds exactly when `q < limit^2` |
| Geometry.RootAtMost | src/components/ChaosCanvas.tsx:235-236 | under `IsSqrt`, `sqrt(q) <= limit` holds exactly when `q <= limit^2` |
| Arith.LerpWithin | src/components/ChaosCanvas.tsx:69-71 | for t in [0, 1], `x + (y - x) * t` lies on the segment between x and y |
| ChaosCanvas.LerpChannel | src/components/ChaosCanvas.tsx:69-71 | one channel is hot at t = 0 and cool at t = 1, and lies between them for t in [0, 1] |
| ChaosCanvas.LerpColor | src/components/ChaosCanvas.tsx:63-73 | the colour is the hot colour at t = 0 and the cool colour at t = 1; for t in [0, 1] every channel lies between the two colours' channels |
| ChaosCanvas.PickIndex | src/components/ChaosCanvas.tsx:59-61 | `floor(u * n)` is a valid index for every sample u in [0, 1) |
| ChaosCanvas.Pick | src/components/ChaosCanvas.tsx:59-61 | the picked value is an element of the pool |
| ChaosCanvas.JitterBand | src/components/ChaosCanvas.tsx:104-105 | the cell centre moved by (u - 0.5) * 0.4 of the cell lies in the central 40% of the cell |
| ChaosCanvas.TargetX | src/components/ChaosCanvas.tsx:98-104 | the target x lies in the central 40% of the column of the fragment's group |
| ChaosCanvas.TargetY | src/components/ChaosCanvas.tsx:99-105 | the target y lies in the central 40% of the row of the fragment's group |
| ChaosCanvas.Spread | src/components/ChaosCanvas.tsx:110-111 | a random start coordinate lies on the canvas, in [0, size] |
| ChaosCanvas.TargetInCell | src/components/ChaosCanvas.tsx:87-105 | every target lies in the grid rectangle [0.2w, 0.8w] x [0.25h, 0.65h] |
| ChaosCanvas.NewFragment | src/components/ChaosCanvas.tsx:95-124 | fragment i has kind types[i % 7] and group i % 6, text from its kind's pool and the font size of its kind, colours from the two palettes, and its target in its cell's central band; its position is on the canvas; vx and vy are in [-2, 2), rotation in [0, 2*pi), rotation speed in [-0.015, 0.015), opacity in [0.5, 1) and bar height in [10, 30) |
| ChaosCanvas.CreateFragments | src/components/ChaosCanvas.tsx:75-126 | exactly `count` fragments, fragment i spawned as index i |
| ChaosCanvas.GroupCountRoundRobin | src/components/ChaosCanvas.tsx:97 | with groups assigned as i % 6, the first n fragments hold (n + 5 - g) / 6 members of group g |
| ChaosCanvas.DesktopGroupsHaveTwenty | src/components/ChaosCanvas.tsx:149 | the 120 desktop fragments form six groups of exactly 20 |
| ChaosCanvas.FactorsOf | src/components/ChaosCanvas.tsx:192-197 | convergence and colorT lie in [0, 1] and chaos == 1 - convergence; convergence is 0 exactly when progress <= 0.15 and 1 exactly when progress >= 0.65; colorT is 0 exactly when progress <= 0.1 and 1 exactly when progress >= 0.55 |
| ChaosCanvas.WrapCoord | src/components/ChaosCanvas.tsx:214-219 | below -50 re-enters at size + 50, above size + 50 re-enters at -50, a coordinate within the margin is kept, and the result always lies in [-50, size + 50] |
| ChaosCanvas.Repel | src/components/ChaosCanvas.tsx:221-231 | repulsion changes only the velocity, and changes nothing on mobile or when chaos <= 0.3 |
| ChaosCanvas.ScaleDown | src/components/ChaosCanvas.tsx:236-239 | rescaling changes only the velocity |
| ChaosCanvas.Clamp | src/components/ChaosCanvas.tsx:233-239 | the clamp changes only the velocity |
| ChaosCanvas.UpdateFragment | src/components/ChaosCanvas.tsx:200-240 | a frame never changes kind, text, colours, font size, opacity, group, bar height, rotation speed or target |
| ChaosCanvas.StepAll | src/components/ChaosCanvas.tsx:200-240 | the frame keeps the number of fragments |
| ChaosCanvas.SettledFrameIsPurePull | src/components/ChaosCanvas.tsx:202-231 | when progress >= 0.65, drift, rotation, wrap and repulsion do nothing; each coordinate moves exactly 0.08 of the way to its target, so its gap shrinks to 0.92 of what it was |
| ChaosCanvas.ChaoticFrameHasNoPull | src/components/ChaosCanvas.tsx:202-219 | when progress <= 0.15 there is no pull: the position is the drifted one, wrapped, and the rotation advances by the full rotation speed |
| ChaosCanvas.SettleFramesConverge | src/components/ChaosCanvas.tsx:207-210 | after k settled frames each coordinate's gap to its target is 0.92^k times the original gap |
| ChaosCanvas.ChaoticFrameStaysNearCanvas | src/components/ChaosCanvas.tsx:213-219 | while chaos > 0.1, every fragment ends the frame within 50 pixels of the canvas |
| ChaosCanvas.ScaledToLimit | src/components/ChaosCanvas.tsx:237-238 | scaling the direction of the velocity to maxV gives a velocity of length exactly maxV |
| ChaosCanvas.ScaleDownBound | src/components/ChaosCanvas.tsx:234-239 | after rescaling by the true speed the squared speed is at most maxV^2, and a velocity already within the limit is unchanged |
| ChaosCanvas.ClampWithRoot | src/components/ChaosCanvas.tsx:233-239 | given a true root of the squared speed, the clamped speed is at most 4 * chaos + 0.05, and a velocity within the limit is unchanged |
| ChaosCanvas.ClampBoundsSpeed | src/components/ChaosCanvas.tsx:233-239 | under `IsSqrt`, vx^2 + vy^2 <= (4 * chaos + 0.05)^2 after the clamp, and a velocity within the limit is unchanged |
| ChaosCanvas.FrameBoundsSpeed | src/components/ChaosCanvas.tsx:199-240 | every frame leaves each fragment no faster than the limit for that frame's chaos |
| ChaosCanvas.Advance | src/components/ChaosCanvas.tsx:200 | the in-place loop replaces every slot of the fragment array with the update of its old value |
| ChaosCanvas.StepAllKeepsIndexed | src/components/ChaosCanvas.tsx:96-97 | a frame keeps kind types[i % 7] and group i % 6 for every fragment index |
| ChaosCanvas.SettledHasNoChaoticLayer | src/components/ChaosCanvas.tsx:243-265 | once progress >= 0.65 the group layer is on and the chaotic layer is off |
| ChaosCanvas.Animator.constructor | src/components/ChaosCanvas.tsx:137-163 | mounting picks the device class from window width < 768, creates 35 or 120 fragments, starts visible, with the pointer parked at (-1000, -1000) |
| ChaosCanvas.Animator.MouseMove | src/components/ChaosCanvas.tsx:166-171 | on desktop the pointer cell takes the new position; on mobile it is left alone |
| ChaosCanvas.Animator.SetVisible | src/components/ChaosCanvas.tsx:175-178 | the visibility flag takes the observer's value |
| ChaosCanvas.Animator.Step | src/components/ChaosCanvas.tsx:181-240 | while visible, the fragment array becomes the frame update of its old contents and keeps every fragment's kind and group; while hidden, nothing changes |
| ChaosCanvas.Animator.Resize | src/components/ChaosCanvas.tsx:347-363 | only targetX and targetY change, recomputed from the new size, and every new target lies in the central 40% of its cell |
| ChaosCanvas.Animator.GroupConnections | src/components/ChaosCanvas.tsx:243-262 | (i, j) is drawn exactly when convergence > 0.2, i < j, both fragments are in the same group, and they are closer than the connection distance |
| ChaosCanvas.Animator.ChaoticConnections | src/components/ChaosCanvas.tsx:264-283 | (i, j) is drawn exactly when chaos > 0.3, i < j, i % 3 == 0, j % 3 == 1, and the pair is closer than 0.8 of the connection distance |
| Cyclic.Succ | src/components/Testimonials.tsx:54 | the next index stays in [0, n), is p + 1 before the end, and wraps to 0 from the last slide |
| Cyclic.Pred | src/components/Testimonials.tsx:59 | the previous index stays in [0, n), is p - 1 after the start, and wraps to n - 1 from the first slide |
| Cyclic.SuccPredInverse | src/components/Testimonials.tsx:53-60 | next and previous undo each other |
| Cyclic.SuccNIsAddition | src/components/Testimonials.tsx:54 | k forward steps land on (p + k) % n |
| Cyclic.FullLap | src/components/CaseStudies.tsx:83 | n forward steps return to the starting slide |
| CaseStudies.Navigate | src/components/CaseStudies.tsx:78-81 | the slide becomes the target; the direction is 1 exactly when the target is past the current slide and -1 otherwise; a target in [0, 4) gives a valid state |
| CaseStudies.Next | src/components/CaseStudies.tsx:83 | next keeps a valid state |
| CaseStudies.Prev | src/components/CaseStudies.tsx:84-85 | prev keeps a valid state |
| CaseStudies.NextMoves | src/components/CaseStudies.tsx:83 | next moves one slide forward with direction 1, except from slide 3, where it wraps to 0 with direction -1 |
| CaseStudies.PrevMoves | src/components/CaseStudies.tsx:84-85 | prev moves one slide back with direction -1, except from slide 0, where it wraps to 3 with direction 1 |
| CaseStudies.NextPrevInverse | src/components/CaseStudies.tsx:83-85 | prev after next, and next after prev, show the same slide again |
| CaseStudies.NextTimes | src/components/CaseStudies.tsx:83 | any number of presses keeps a valid state |
| CaseStudies.NextTimesAdvances | src/components/CaseStudies.tsx:83 | k presses of next advance the slide by k steps around the ring |
| CaseStudies.NextTimesLast | src/components/CaseStudies.tsx:83 | the last of k + 1 presses is one next after the first k |
| CaseStudies.FourNextsReturn | src/components/CaseStudies.tsx:83 | four presses return to the same slide, arriving backward exactly when that slide is the first |
| CaseStudies.Carousel.constructor | src/components/CaseStudies.tsx:75-76 | the carousel starts on slide 0 with direction 1 |
| CaseStudies.Carousel.NavigateTo | src/components/CaseStudies.tsx:78-81 | the state becomes `Navigate` of the old state |
| CaseStudies.Carousel.NextSlide | src/components/CaseStudies.tsx:83 | the state becomes `Next` of the old state |
| CaseStudies.Carousel.PrevSlide | src/components/CaseStudies.tsx:84-85 | the state becomes `Prev` of the old state |
| CaseStudies.Carousel.DotClick | src/components/CaseStudies.tsx:200-203 | a dot click navigates to that slide and leaves a valid state |
| Testimonials.Rotator.constructor | src/components/Testimonials.tsx:51 | the rotator starts on quote 0 |
| Testimonials.Rotator.Next | src/components/Testimonials.tsx:53-56 | the quote becomes the successor modulo 5 |
| Testimonials.Rotator.Prev | src/components/Testimonials.tsx:57-60 | the quote becomes the predecessor modulo 5 |
| Testimonials.Rotator.Select | src/components/Testimonials.tsx:149-152 | a dot click shows exactly the clicked quote |
| Testimonials.Rotator.Tick | src/components/Testimonials.tsx:62-65 | an autoplay period applies exactly next |
| Testimonials.Rotator.Ticks | src/components/Testimonials.tsx:62-65 | k autoplay periods advance the quote by k steps |
| Testimonials.FiveTicksReturn | src/components/Testimonials.tsx:62-65 | five autoplay periods show the same quote again |
| Testimonials.Split | src/components/Testimonials.tsx:125 | splitting gives at least one piece, and no piece contains the separator |
| Testimonials.JoinSplit | src/components/Testimonials.tsx:125-127 | joining the pieces of a split with the same separator gives back the text |
| Testimonials.SplitJoin | src/components/Testimonials.tsx:125-127 | splitting a join of separator-free words gives back the words |
| Testimonials.FirstChar | src/components/Testimonials.tsx:126 | a piece contributes its first character, or nothing if it is empty |
| Testimonials.FirstChars | src/components/Testimonials.tsx:126-127 | the joined first characters are no longer than the number of pieces |
| Testimonials.FirstCharsOfWords | src/components/Testimonials.tsx:126-127 | for non-empty pieces, the joined first characters are exactly those characters, in order |
| Testimonials.InitialsOfWords | src/components/Testimonials.tsx:124-127 | for non-empty words separated by single spaces, the initials are the words' first letters, in order, one per word |
| Testimonials.AvatarInitials | src/components/Testimonials.tsx:124-127 | the five avatars read DSM, JR, RK, MC and LF |
| AgentFeed.Window | src/components/AgentFeed.tsx:31-36 | a window holds four rows, each a valid action index |
| AgentFeed.Rotate | src/components/AgentFeed.tsx:34 | a period keeps four rows: rows 2 to 4 move up unchanged, and the new last row is the counter modulo 8 |
| AgentFeed.RotateWindow | src/components/AgentFeed.tsx:31-36 | rotating window k with counter k + 4 gives window k + 1 |
| AgentFeed.WindowDistinct | src/components/AgentFeed.tsx:16-34 | the four rows name four different actions, all among the eight |
| AgentFeed.WindowPeriodic | src/components/AgentFeed.tsx:34 | every eight periods the same four rows come back |
| AgentFeed.RowOpacity | src/components/AgentFeed.tsx:83 | row opacity lies in [0.7, 1] and is 1 exactly for the top row |
| AgentFeed.OpacityFades | src/components/AgentFeed.tsx:83 | lower rows are strictly fainter |
| AgentFeed.Feed.constructor | src/components/AgentFeed.tsx:28-31 | the feed starts with rows [0, 1, 2, 3] and counter 4 |
| AgentFeed.Feed.Tick | src/components/AgentFeed.tsx:33-37 | one period drops the head, appends counter % 8, increments the counter, and keeps the rows equal to the window of the counter |
| AgentFeed.Feed.Ticks | src/components/AgentFeed.tsx:32-39 | after k periods the counter has grown by k and the rows are window (counter - 4) |
| AgentFeed.FeedAfter | src/components/AgentFeed.tsx:28-37 | k periods after first render the rows are actions k..k+3 modulo 8, pairwise distinct |
| DataFlowLines.ConnectionsValid | src/components/DataFlowLines.tsx:7-16 | the eight links join two different panels among the six panel centres |
| DataFlowLines.ControlPoint | src/components/DataFlowLines.tsx:83-88 | the control point is equally far from both ends; its offset from the midpoint is perpendicular to the chord, 0.15 of the chord long, and on the side where the chord turns clockwise into it (the cross product of chord and offset is -0.15 times the chord's squared length) |
| DataFlowLines.Bezier | src/components/DataFlowLines.tsx:91-93 | the curve point is `from` at t = 0 and `to` at t = 1 |
| DataFlowLines.BezierCoordEnds | src/components/DataFlowLines.tsx:92-93 | one coordinate of the curve is the start coordinate at t = 0 and the end coordinate at t = 1 |
| DataFlowLines.BezierCoordInHull | src/components/DataFlowLines.tsx:92-93 | for t in [0, 1] a curve coordinate lies between the least and greatest of its three defining coordinates |
| DataFlowLines.DotAt | src/components/DataFlowLines.tsx:77-93 | a dot sits on its start panel's centre at progress 0 and on its end panel's centre at progress 1 |
| DataFlowLines.DotsInsideViewBox | src/components/DataFlowLines.tsx:73-93 | for progress in [0, 1] every dot lies inside the 100 x 100 view box |
| DataFlowLines.TrailAt | src/components/DataFlowLines.tsx:110-112 | the trail dot is in the view box whenever it lags a point of the curve, i.e. for progress in [0.05, 1.05] |
| DataFlowLines.NewDot | src/components/DataFlowLines.tsx:48-52 | dot k follows connection k, starts at progress in [0, 1), and has speed in [0.003, 0.007) |
| DataFlowLines.InitDots | src/components/DataFlowLines.tsx:48-52 | activation makes exactly one dot per connection, numbered in order, each with a valid start and speed |
| DataFlowLines.AdvanceDot | src/components/DataFlowLines.tsx:55-58 | a frame changes only progress, which grows by the speed unless it passes 1, in which case it restarts at 0 |
| DataFlowLines.AdvanceKeepsValid | src/components/DataFlowLines.tsx:55-58 | progress stays in [0, 1] after every frame |
| DataFlowLines.WrapsWithin | src/components/DataFlowLines.tsx:56-57 | if n steps of the speed would pass the end, the dot restarts at 0 within n frames |
| DataFlowLines.DotCycles | src/components/DataFlowLines.tsx:51-57 | every dot restarts at the beginning of its line within 334 frames |
| DataFlowLines.Flow.constructor | src/components/DataFlowLines.tsx:30 | there are no dots before the panel is active |
| DataFlowLines.Flow.Activate | src/components/DataFlowLines.tsx:44-52 | becoming active lays out a fresh array of the initial dots |
| DataFlowLines.Flow.Animate | src/components/DataFlowLines.tsx:54-58 | every dot in the array is advanced in place, and all dots stay valid |
| Counting.StepSize | src/components/LivingDashboard.tsx:104 | the step has the target's sign, and is 0 for a target of 0 |
| Counting.TickState | src/components/LivingDashboard.tsx:105-113 | a stopped counter does not change; a running one adds the step and keeps running exactly while the sum is below the target |
| Counting.InitialInv | src/components/LivingDashboard.tsx:97-103 | the counter's invariant holds before and at the start of counting |
| Counting.TickKeepsInv | src/components/LivingDashboard.tsx:105-112 | for a non-negative target, a tick keeps the invariant; the shown number never decreases and never exceeds the target |
| Counting.StoppedStaysStopped | src/components/LivingDashboard.tsx:107-109 | once the timer is cleared, further ticks change nothing |
| Counting.AccumulatedIsMultiple | src/components/LivingDashboard.tsx:106 | adding the step k times gives k times the step |
| Counting.CountingBefore | src/components/LivingDashboard.tsx:105-112 | while the accumulator stays below the target, the counter keeps running and shows the floor of the accumulator |
| Counting.CountingTick | src/components/LivingDashboard.tsx:110-111 | a tick that stays below the target shows the floor of the new accumulator |
| Counting.FinalTick | src/components/LivingDashboard.tsx:107-109 | a tick that reaches the target shows the target and stops |
| Counting.StepTimesFrames | src/components/LivingDashboard.tsx:104 | the step times the number of frames is the target |
| Counting.StepsBelowTarget | src/components/LivingDashboard.tsx:104-107 | for a positive target, fewer than `frames` steps stay below it and `frames` steps reach it exactly |
| Counting.ReachesTarget | src/components/LivingDashboard.tsx:104-109 | with exact arithmetic, a non-negative target is shown exactly, with the timer stopped, after `frames` ticks |
| Counting.RunningBefore | src/components/LivingDashboard.tsx:104-112 | for a positive target the timer is still running at every tick before `frames` |
| Counting.AnimatedCounter.constructor | src/components/LivingDashboard.tsx:97-99 | the counter shows 0 and is not yet in view |
| Counting.AnimatedCounter.EnterView | src/components/LivingDashboard.tsx:99-105 | only the first time in view restarts the accumulator at 0 and starts the timer |
| Counting.AnimatedCounter.Tick | src/components/LivingDashboard.tsx:105-113 | one tick of `TickState`; nothing changes before the number is in view; for a non-negative target the shown number never decreases and never exceeds the target |
| LivingDashboard.DashboardCountersFinish | src/components/LivingDashboard.tsx:89-109 | each of the figures 10, 50, 4 and 98 is shown exactly at tick 120, with the timer stopped, having run until then |
| LivingDashboard.SeqMax | src/components/LivingDashboard.tsx:138 | the maximum bounds every value and is one of them |
| LivingDashboard.SeqMin | src/components/LivingDashboard.tsx:139 | the minimum is below every value and is one of them |
| LivingDashboard.Range | src/components/LivingDashboard.tsx:140 | the range is positive: max - min for a non-flat series, 1 for a flat one |
| LivingDashboard.NormalizedInUnit | src/components/LivingDashboard.tsx:149 | every value normalises into [0, 1], the least value to 0 and, in a non-flat series, the greatest to 1 |
| LivingDashboard.Bars | src/components/LivingDashboard.tsx:144-154 | one bar per value, all of the same width; the first starts at x = 0, each next one starts one unit after the previous one ends, and the last ends at 99, one unit inside the right edge; every height is in [4, 32] |
| LivingDashboard.BarHeightExtremes | src/components/LivingDashboard.tsx:149 | the least value's bar is 4 high and, in a non-flat series, the greatest value's bar is 32 high |
| LivingDashboard.BarsFollowValues | src/components/LivingDashboard.tsx:149 | a larger value gets a strictly taller bar |
| LivingDashboard.AreaPoints | src/components/LivingDashboard.tsx:168-171 | one point per value, running strictly left to right from x = 0 to x = 100; every y lies in [3, 29], the least value at 29 and, in a non-flat series, the greatest at 3 |
| LivingDashboard.AreaPointsSpan | src/components/LivingDashboard.tsx:169 | a point later in the series lies strictly further right |
| LivingDashboard.AreaFollowsValues | src/components/LivingDashboard.tsx:170 | a larger value gets a strictly higher point (a smaller y) |
| LivingDashboard.LinePath | src/components/LivingDashboard.tsx:172 | one command per point, visiting exactly the chart's points in order: a move to the first and a line to each of the others |
| LivingDashboard.AreaPath | src/components/LivingDashboard.tsx:173 | the area path starts with the line path, then visits (100, 32) and (0, 32), and is closed once, at its end |
| Stats.Frames | src/components/Stats.tsx:22 | a positive duration plans a positive number of ticks, duration * 60 |
| Stats.DefaultMatchesDashboard | src/components/Stats.tsx:9-22 | the default duration 2 gives 120 ticks, the same step as the dashboard counter |
| Stats.NewStatCounter | src/components/Stats.tsx:15-22 | a statistic's counter shows 0, is not in view, and is planned over duration * 60 ticks |
| Stats.StatsCounterFinishes | src/components/Stats.tsx:22-28 | with exact arithmetic and a whole number of ticks, the counter shows its target at tick duration * 60, stopped, and runs until then |
| Stats.DefaultStatsFinish | src/components/Stats.tsx:43-68 | each of the four statistics, at the default duration, ends on its figure after 120 ticks |
| Footer.Lower | src/components/Footer.tsx:147 | a capital becomes the same letter in lower case, every other character is left alone, no capital remains, and whitespace stays whitespace |
| Footer.Slug | src/components/Footer.tsx:147 | the slug has the link's length; each whitespace character becomes a hyphen and every other character its lower-case form; the slug has no whitespace and no capital, and a hyphen exactly where the link had whitespace or a hyphen |
| Footer.SlugKeepsSlugs | src/components/Footer.tsx:147 | a text without whitespace or capitals is its own slug |
| Footer.SlugIdempotent | src/components/Footer.tsx:147 | making a slug twice changes nothing more |
| Footer.Href | src/components/Footer.tsx:145-149 | a Company link's target is "#" followed by the link's slug, so it contains no whitespace after the "#"; a link of any other column targets "#services" |
| Footer.HrefOfSlug | src/components/Footer.tsx:147 | using a link's slug as its text gives the same target |
| Footer.Hrefs | src/components/Footer.tsx:136-149 | there is one list of targets per link column |
| Footer.FooterTargets | src/components/Footer.tsx:9-11 | the Company links "Our Work" and "Contact" target "#our-work" and "#contact" |
| Footer.OurWorkTarget | src/components/Footer.tsx:147 | the "Our Work" link targets "#our-work" |
| Footer.ContactTarget | src/components/Footer.tsx:147 | the "Contact" link targets "#contact" |

## Left out

- Canvas painting is not modelled: glyphs, chips, dots, bars, stroke and fill style strings, text measurement, and the device-pixel-ratio backing-store resize. These are browser rendering calls.
- The colour and opacity of connection lines and glyphs are not modelled; they are inputs to painting only.
- Randomness: every `Math.random()` sample is a parameter constrained to [0, 1).
- `Math.sqrt` is a parameter, and `IsSqrt` states what a true square root satisfies. Dafny has no built-in real square root.
- Floating point: reals are exact. The counter lemmas assume exact arithmetic. With IEEE doubles, the sum of 120 steps can miss the target by rounding, and the counter then stops one tick later.
- ChaosCanvas.Repel: the contract states which fields repulsion may change and when it changes nothing. The direction and strength of the push are not stated.
- ChaosCanvas.WrapCoord: the range facts are stated for sizes of at least -100. The canvas size is never negative.
- Canvas width and height are read from the DOM every frame. In the model they are parameters of `Step` and `Resize`.
- Scheduling and lifecycle are not modelled: `requestAnimationFrame`, `setInterval`, the intersection observers, window event listeners and their removal on unmount. Each timer tick or frame is one method call.
- Deactivation of the data-flow lines (the effect's cleanup) is scheduling only, so it is not modelled.
- React's re-render counter (`setTick`) in DataFlowLines is not modelled.
- LivingDashboard.AreaPoints: requires at least two values. With one value the x coordinate is 0/0, NaN in JavaScript, which has no exact-real counterpart. Every chart on the page has twelve values.
- Stats.Frames: requires a positive duration. A zero duration divides by zero, giving an infinite or NaN step in JavaScript. The only caller uses the default of 2.
- Counting.AnimatedCounter.Tick: the bound and monotonicity are stated for non-negative targets only. A negative target jumps straight to the target, below the initial 0. Every figure on the page is non-negative.
- Footer.Lower: only ASCII capitals are folded. Full Unicode case mapping, which can change the length of a string, is not modelled. Every link text is ASCII.
- Path strings: number formatting in the SVG path text is not modelled. Paths are lists of commands.
- framer-motion behaviour is not modelled: presence animations, transitions, springs, scroll transforms and parallax. It is library code that is not shown.
- Static content is not modelled: the case-study, testimonial and agent-action texts and colours (only the names and statuses needed are kept), the dashboard panels' labels, icons and sparkline values, and the activity mini-graph.
- Other components are not part of this model: the contact form (a network POST with an alert on failure), the navigation bar, the hero, the industries and services sections, and the page layout.
