# Anatomia marketing site — logic model

A Dafny model of the logic inside the Anatomia healthcare-automation marketing
site. Eleven pieces of behaviour are modelled:

- the ROI estimator (hours saved, yearly savings, a tiered platform cost, net savings and ROI percent);
- the resources page filter (search box, topic and content type), its content-type icons and its three-tag limit;
- the case-studies filter (outcome category and organisation size);
- the demo-request wizard, a three-step form;
- the testimonial star rows;
- the avatar initials;
- the integration category counts and the Live/Soon badges;
- the Monthly/Annual pricing switch and its plan prices;
- the animated counters on the testimonials section, which show only the digits of their figure;
- the same counters on the metrics section;
- the same counters on the company page.

The code is split into these modules:

- `Sequences` holds the list operations the pages use: `filter`, `slice`, `find` and the subsequence relation.
- `Text` holds the string operations: ASCII `toLowerCase`, `includes`, `split(' ')` and `replace(/[^0-9]/g, '')`. It also holds `Join`, a one-character-separator join. The site never calls that join; it is the inverse that pins down `split(' ')`. The site's only `join('')` is modelled by `Testimonials.FirstLetters`, as plain concatenation.
- One module per page or section: `ROICalculator`, `Blog`, `CaseStudies`, `Contact`, `Testimonials`, `IntegrationSection`, `Pricing`, `MetricsSection` and `Company`.

Page state that the code changes through React state setters is modelled as a class:

- `Contact.DemoRequest` holds the wizard's step and its form object.
- `Pricing.PricingPage` holds the billing switch.

Everything else is modelled as pure functions over the page's constant data.

Wages are integers: the wage slider (`src/components/ROICalculator.tsx:119-125`) runs from 20 to 75 in steps of 5, so the yearly savings are an exact integer product.

## Model

| member | source | states |
|---|---|---|
| ROICalculator.RoundDiv | src/components/ROICalculator.tsx:24 | `Math.round(a / b)` for positive `b`: the result is within one half of a/b, with halves rounding up |
| ROICalculator.RoundDivUnique | src/components/ROICalculator.tsx:24 | only one integer meets the rounding bound, so the rounding is determined by it |
| ROICalculator.RoundDivExact | src/components/ROICalculator.tsx:24 | rounding an exact quotient gives that quotient |
| ROICalculator.RoundDivMonotonic | src/components/ROICalculator.tsx:24 | a larger numerator never rounds lower |
| ROICalculator.MinutesSaved | src/components/ROICalculator.tsx:19-23 | 8 − 2 = 6 minutes are saved per call over 12 months of calls: 72 × the monthly volume in minutes |
| ROICalculator.HoursSaved | src/components/ROICalculator.tsx:24 | the hours saved are within half an hour of 72·calls/60 (halves up), and never negative for a non-negative volume |
| ROICalculator.YearlySavings | src/components/ROICalculator.tsx:25 | the savings are never negative for non-negative inputs, and exactly 6/5 · calls · wage whenever the calls are a multiple of 5 |
| ROICalculator.AnnualCost | src/components/ROICalculator.tsx:26 | the cost is always positive; it is 1188 iff staff ≤ 100, 5988 iff 100 < staff ≤ 500, and 15000 iff staff > 500 |
| ROICalculator.RoiPercent | src/components/ROICalculator.tsx:28 | ROI is 100·net/cost rounded to the nearest integer; it is negative only when the net is, and non-negative otherwise |
| ROICalculator.Compute | src/components/ROICalculator.tsx:19-28 | the card is total on every input; net = savings − cost; the ROI and the hours meet their rounding bounds; savings = hours · wage |
| ROICalculator.HoursSavedExact | src/components/ROICalculator.tsx:22-24 | hours saved = round(6·calls/5), and exactly 6·calls/5 when calls is a multiple of 5 |
| ROICalculator.HoursSavedMonotonic | src/components/ROICalculator.tsx:22-24 | more calls never save fewer hours |
| ROICalculator.SavingsMonotonicInWage | src/components/ROICalculator.tsx:24-25 | for a fixed non-negative call volume, a higher wage never gives lower savings |
| ROICalculator.AnnualCostMonotonic | src/components/ROICalculator.tsx:26 | a larger organisation never pays less |
| ROICalculator.HoursOnGrid | src/components/ROICalculator.tsx:97-103 | on the call slider's grid (100 to 10000, step 100) the hours are exactly 6/5 of the calls and lie between 120 and 12000 |
| ROICalculator.OnSliderDomain | src/components/ROICalculator.tsx:75-81 | on the slider grid the hours are exactly 6/5 of the calls, between 120 and 12000, and the savings are between 2400 and 900000 |
| ROICalculator.DefaultEstimate | src/components/ROICalculator.tsx:9-11 | the initial sliders (500, 2000, 35) lie on the grid and show 2400 h, 84000, 5988, 78012 and 1303% |
| ROICalculator.SmallTierBoundaryEstimate | src/components/ROICalculator.tsx:19-28 | 100 staff still pays the small-tier cost: (100, 100, 20) shows 120 h, 2400, 1188, 1212 and 102% |
| ROICalculator.LargeTierEstimate | src/components/ROICalculator.tsx:19-28 | 501 staff pays the top-tier cost: (501, 10000, 75) shows 12000 h, 900000, 15000, 885000 and 5900% |
| ROICalculator.NegativeReturn | src/components/ROICalculator.tsx:97-103 | a grid point with a loss: (2000, 100, 20) shows net −12600 and ROI −84% |
| Sequences.Filter | src/pages/Blog.tsx:135 | `filter` returns only passing elements and never more than it is given |
| Sequences.FilterIsSubsequence | src/pages/Blog.tsx:135 | the filtered list is a subsequence of its input, in the original order |
| Sequences.FilterMembership | src/pages/CaseStudies.tsx:138 | an element is in the filtered list iff it is in the input and passes |
| Sequences.FilterOccurrences | src/pages/Contact.tsx:97 | a passing element occurs as often in the filtered list as in the input, and a failing one never |
| Sequences.FilterStricter | src/pages/CaseStudies.tsx:139-141 | a stricter test keeps a subsequence of what a weaker test keeps |
| Sequences.FilterConcat | src/components/IntegrationSection.tsx:105 | filtering distributes over concatenation |
| Sequences.Prefix | src/pages/Blog.tsx:369 | `slice(0, n)` is a prefix of length min(n, length) |
| Sequences.Find | src/pages/Contact.tsx:408 | `find` returns some value iff some element passes, and that value passes and is in the list |
| Sequences.FindIsFirst | src/pages/Contact.tsx:408 | `find` returns the first passing element |
| Text.Lower | src/pages/Blog.tsx:136 | the ASCII lower-casing keeps the length, turns every capital into its lower-case letter (code + 32), leaves no capital, and keeps every other character |
| Text.LowerIdempotent | src/pages/Blog.tsx:136 | lower-casing twice equals lower-casing once |
| Text.Includes | src/pages/Blog.tsx:136-138 | `includes` finds the empty needle and every prefix, and never a needle longer than the haystack |
| Text.IncludesIffOccurs | src/pages/Blog.tsx:136-138 | `includes` holds iff the needle occurs at some position of the haystack |
| Text.NotIncluded | src/components/IntegrationSection.tsx:105 | a needle longer than the haystack, or one holding a character the haystack lacks, is not included |
| Text.Split | src/components/TestimonialsSection.tsx:139 | `split(' ')` gives at least one piece and no piece contains the separator; the first piece is the prefix up to the first separator |
| Text.JoinSplit | src/components/TestimonialsSection.tsx:139 | joining the pieces of a split with the separator rebuilds the string |
| Text.SplitJoin | src/components/TestimonialsSection.tsx:139 | splitting separator-free words joined by the separator gives the words back |
| Text.Join | src/components/TestimonialsSection.tsx:139 | the inverse of `split(' ')` used by `JoinSplit` and `SplitJoin`, not the `join('')` of this line: the joined string starts with the first piece, has the separator right after it when more pieces follow, and has at least one separator per gap |
| Text.StripNonDigits | src/components/TestimonialsSection.tsx:92 | `replace(/[^0-9]/g, '')` leaves only digits, as a subsequence of its input |
| Text.StripNonDigitsProperties | src/components/TestimonialsSection.tsx:92 | the strip keeps every digit as often as it occurs, is no longer than its input, and is idempotent |
| Text.StripAllDigits | src/components/MetricsSection.tsx:80 | a digits-only string is unchanged by the strip |
| Blog.FilteredPosts | src/pages/Blog.tsx:135-143 | every listed post passes the search, topic and type tests |
| Blog.FilteredPostsExact | src/pages/Blog.tsx:135-143 | the list is a subsequence of the posts; a post is listed iff it is a post and the search, topic (or "all") and type (or "all") all match |
| Blog.MatchesText | src/pages/Blog.tsx:136 | the case-insensitive `includes` matches every text for the empty term, and nothing shorter than the term |
| Blog.MatchesSearch | src/pages/Blog.tsx:136-138 | the empty search matches every post; a term longer than the title, the excerpt and every tag matches none |
| Blog.KeepPost | src/pages/Blog.tsx:135-142 | an empty search with both drop-downs on "all" keeps the post; a topic or a type other than the post's own drops it |
| Blog.MatchesTextIsSubstring | src/pages/Blog.tsx:136 | a case-insensitive `includes` is exactly a test that the lower-cased term occurs in the lower-cased text |
| Blog.SearchIsSubstring | src/pages/Blog.tsx:136-138 | the search matches iff the lower-cased term occurs in the lower-cased title, the excerpt or some tag |
| Blog.EmptySearchListsAll | src/pages/Blog.tsx:136-140 | an empty search with both drop-downs on "all" lists every post, unchanged and in order |
| Blog.NarrowingNeverAdds | src/pages/Blog.tsx:139-140 | a specific topic or type instead of "all" lists a subsequence of what "all" lists |
| Blog.ResourcesFound | src/pages/Blog.tsx:320 | the count is at most the number of posts, and all of them with no search and both drop-downs on "all" |
| Blog.ContentTypeIcon | src/pages/Blog.tsx:145-154 | whitepaper, webinar, podcast and case-study each get their own icon, and every other type, article included, gets FileText |
| Blog.VisibleTags | src/pages/Blog.tsx:369 | a card shows a prefix of the tags of length min(3, tag count) |
| CaseStudies.FilteredStudies | src/pages/CaseStudies.tsx:138-142 | every listed study passes both drop-downs |
| CaseStudies.FilteredStudiesExact | src/pages/CaseStudies.tsx:138-142 | the list is a subsequence of the studies; a study is listed iff (filter is "all" or its category) and (size is "all" or its size) |
| CaseStudies.KeepStudy | src/pages/CaseStudies.tsx:138-142 | both drop-downs on "all" keep the study; a category or a size other than the study's own drops it |
| CaseStudies.AllListsEverything | src/pages/CaseStudies.tsx:23-24 | with both drop-downs on their initial "all" every study is listed |
| CaseStudies.UnusedOptionsListNothing | src/pages/CaseStudies.tsx:122-136 | "efficiency" and "small" are offered but match no study, so either empties the list |
| CaseStudies.NarrowingNeverAdds | src/pages/CaseStudies.tsx:139-141 | narrowing either drop-down from "all" lists a subsequence, never more studies |
| CaseStudies.StudiesShown | src/pages/CaseStudies.tsx:226 | the count is at most 3, exactly 3 for all/all and 0 for "efficiency" or "small" |
| Contact.WithText | src/pages/Contact.tsx:241-371 | after `{ ...prev, field: value }` the edited input reads `value`, every other input keeps its text, and the interests and demo type stay |
| Contact.CheckAppends | src/pages/Contact.tsx:95-96 | checking appends the interest at the end and keeps the earlier entries |
| Contact.UncheckRemoves | src/pages/Contact.tsx:97 | unchecking removes every occurrence, and keeps the other entries in order with their multiplicities |
| Contact.UpdatedInterests | src/pages/Contact.tsx:94-96 | afterwards the interest is listed iff it was checked, and every other entry is listed iff it was before |
| Contact.InterestChanged | src/pages/Contact.tsx:92-98 | an interest update changes only `interests`; afterwards the interest is present iff it was checked |
| Contact.CanLeaveDetails | src/pages/Contact.tsx:327 | Next on step 1 is enabled iff the four inputs the button's `disabled` test reads (first name, last name, email, organisation) are all non-empty |
| Contact.OptionalFieldsDoNotGate | src/pages/Contact.tsx:327 | editing the role, the organisation size or the message never enables or disables Next; the role is starred on the page (line 287), but the guard does not check it |
| Contact.DemoTypesDistinct | src/pages/Contact.tsx:39-79 | no two demo formats share a type |
| Contact.SummaryOption | src/pages/Contact.tsx:408-414 | the summary lookup finds an option iff the type is offered, and then it is exactly the option of that type |
| Contact.HighlightedDots | src/pages/Contact.tsx:225-227 | on step s (1 to 3) exactly dots 1..s are highlighted |
| Contact.DemoRequest.constructor | src/pages/Contact.tsx:26-37 | the wizard opens on step 1 with empty fields, no interests and a live demo |
| Contact.DemoRequest.EditText | src/pages/Contact.tsx:232-371 | typing into an input on the step that renders it changes that one field, keeping the step |
| Contact.DemoRequest.NextFromDetails | src/pages/Contact.tsx:325-327 | from step 1 the wizard moves to step 2 iff first name, last name, email and organisation are filled in; otherwise it stays |
| Contact.DemoRequest.BackToDetails | src/pages/Contact.tsx:382 | Back on step 2 returns to step 1, form unchanged |
| Contact.DemoRequest.NextToSummary | src/pages/Contact.tsx:388 | Next on step 2 goes to step 3 without checks, form unchanged |
| Contact.DemoRequest.BackToInterests | src/pages/Contact.tsx:475 | Back on step 3 returns to step 2, form unchanged |
| Contact.DemoRequest.ChangeInterest | src/pages/Contact.tsx:336-352 | a check-box toggle on step 2 replaces the form by its interest update, keeping the step |
| Contact.DemoRequest.SelectDemo | src/pages/Contact.tsx:154 | clicking a format sets the demo type to that format's type and nothing else |
| Contact.DemoRequest.SummaryDemo | src/pages/Contact.tsx:408-414 | in every reachable state the summary finds an offered format whose type is the selected one |
| Testimonials.Stars | src/components/TestimonialsSection.tsx:55-56 | `renderStars` always draws five stars |
| Testimonials.StarsLayout | src/components/TestimonialsSection.tsx:55-64 | the row is the clamped rating's filled stars followed by empty ones |
| Testimonials.FilledStars | src/components/TestimonialsSection.tsx:59-60 | the number of filled stars is the rating when 0..5, 0 below, 5 above |
| Testimonials.FirstLetters | src/components/TestimonialsSection.tsx:139 | `map(n => n[0]).join('')` yields at most one character per word |
| Testimonials.FirstLettersOfWords | src/components/TestimonialsSection.tsx:139 | with no empty word there is exactly one initial per word, its first character |
| Testimonials.Initials | src/components/TestimonialsSection.tsx:139 | there are never more initials than space-separated words |
| Testimonials.InitialsOfWords | src/components/TestimonialsSection.tsx:139 | a name of non-empty words joined by single spaces gets one initial per word, in order |
| Testimonials.EmptyWordsAddNothing | src/components/TestimonialsSection.tsx:139 | empty pieces from leading, trailing or doubled spaces add no initial: the initials are those of the non-empty words |
| Testimonials.SpacesSkipped | src/components/TestimonialsSection.tsx:139 | "A  B" gets "AB" and " S" gets "S" |
| Testimonials.ChenInitials | src/components/TestimonialsSection.tsx:19 | "Dr. Sarah Chen" gets "DSC" |
| Testimonials.RodriguezInitials | src/components/TestimonialsSection.tsx:29 | "Michael Rodriguez, RN" gets "MRR" |
| Testimonials.ThompsonInitials | src/components/TestimonialsSection.tsx:39 | "Lisa Thompson" gets "LT" |
| Testimonials.DataValue | src/components/TestimonialsSection.tsx:92 | the counter target holds only digits, every digit of the value as often as it occurs there, in the same order |
| Testimonials.StatDataValues | src/components/TestimonialsSection.tsx:49-53 | the counters target "49", "500" and "98"; the decimal point of 4.9 is dropped |
| IntegrationSection.CategoryKeyword | src/components/IntegrationSection.tsx:105 | the keyword is a space-free prefix of the lower-cased card label, followed in the label by a space unless it is the whole label: the label's first word |
| IntegrationSection.InCategory | src/components/IntegrationSection.tsx:105 | the empty keyword takes every integration, and a keyword longer than the category takes none |
| IntegrationSection.CategoryMembers | src/components/IntegrationSection.tsx:105 | every counted integration has the keyword in its lower-cased category |
| IntegrationSection.CategoryCount | src/components/IntegrationSection.tsx:17-34 | no card counts more than the sixteen integrations |
| IntegrationSection.CategoryMembersExact | src/components/IntegrationSection.tsx:105 | a card counts exactly the integrations whose lower-cased category contains the keyword, in page order |
| IntegrationSection.CountByRuns | src/components/IntegrationSection.tsx:17-34 | the count is the sum over the seven runs of equal category, each adding all or nothing |
| IntegrationSection.CategoryCounts | src/components/IntegrationSection.tsx:99-105 | the cards read 7 (EHR Systems), 3 (Communication), 2 (Analytics) and 1 (Cloud Services) |
| IntegrationSection.EhrCount | src/components/IntegrationSection.tsx:18-24 | "EHR Systems" searches for "ehr" and counts the seven EHR systems |
| IntegrationSection.CommunicationCount | src/components/IntegrationSection.tsx:26-28 | "Communication" counts the three communication tools |
| IntegrationSection.AnalyticsCount | src/components/IntegrationSection.tsx:29-30 | "Analytics" counts the two analytics tools |
| IntegrationSection.CloudCount | src/components/IntegrationSection.tsx:25-32 | "Cloud Services" counts one integration: "Salesforce Health Cloud" has Cloud in its name, not its category |
| IntegrationSection.ShownBadges | src/components/IntegrationSection.tsx:143 | the grid shows a prefix of length min(12, list length) |
| IntegrationSection.StatusLabel | src/components/IntegrationSection.tsx:156 | "Live" iff the status is "active", "Soon" for every other status |
| IntegrationSection.ShownBadgesAllLive | src/components/IntegrationSection.tsx:18-33 | the grid shows the first twelve integrations, all Live; the two coming-soon ones are beyond it |
| Pricing.Plans | src/pages/Pricing.tsx:12-67 | three plans; a plan has a struck-through price iff its price is a number |
| Pricing.AnnualIsCheaper | src/pages/Pricing.tsx:15-32 | Starter 79 vs 99 and Professional 399 vs 499: annual is lower in both |
| Pricing.AnnualOriginalIsMonthlyPrice | src/pages/Pricing.tsx:15-33 | in annual mode the struck-through price is the monthly-mode price |
| Pricing.AnnualSavesTwentyPercent | src/pages/Pricing.tsx:105-109 | 5 · annual ≤ 4 · monthly for both numeric plans, backing "Save 20%" |
| Pricing.EnterpriseIsCustom | src/pages/Pricing.tsx:50-51 | Enterprise is "Custom" in both modes, with no original price |
| Pricing.OnePopularPlan | src/pages/Pricing.tsx:28-65 | exactly one plan, Professional, is marked popular |
| Pricing.ShowsSaveBadge | src/pages/Pricing.tsx:105-109 | the "Save 20%" badge shows iff the switch is on annual, and then each numeric plan costs at most 80% of its struck-through price |
| Pricing.PricingPage.constructor | src/pages/Pricing.tsx:10 | the page opens in monthly mode with the monthly prices |
| Pricing.PricingPage.ToggleBilling | src/pages/Pricing.tsx:93 | a click negates the mode (so two clicks restore it) and the cards show the new mode's prices |
| Pricing.PricingPage.ShownPlans | src/pages/Pricing.tsx:15-51 | the cards show 79/99, 399/499 and Custom according to the mode |
| MetricsSection.DataValue | src/components/MetricsSection.tsx:80 | the counter target is digits only, taken in order from the value (a subsequence of it), no longer than it, and a fixed point of the strip |
| MetricsSection.WholeNumbersUnchanged | src/components/MetricsSection.tsx:17-33 | "87", "3200000" and "45" are their own targets |
| MetricsSection.DecimalPointDropped | src/components/MetricsSection.tsx:41 | "99.9" targets "999" |
| Company.DataValue | src/pages/Company.tsx:102 | the counter target is digits only, a subsequence of the figure and no longer than it |
| Company.PartnersAndInteractions | src/pages/Company.tsx:60-61 | "500+" targets "500" and "3.2M+" targets "32" |
| Company.UptimeAndSupport | src/pages/Company.tsx:62-63 | "99.9%" targets "999" and "24/7" targets "247" |

## Left out

- Animation, rendering and layout are not modelled. This covers GSAP tweens, ScrollTrigger, counters counting up, the typewriter effect, the moving-border button, and the social-proof marquee. They are timing and DOM behaviour of foreign libraries.
- Navigation, FeatureShowcase and the static pages (Security, Solutions, Hero, CTA, Problem/Solution, Footer, Index, App routes) are not modelled. They are event-driven UI or constant content with no logic.
- `toLocaleString` in the ROI card is not modelled, and neither is `formatDate` on the resources page. Both are locale-dependent formatting.
- Form submission is not modelled, because it only logs to the console.
- Text.Lower: lower-cases ASCII letters only. JavaScript's full-Unicode `toLowerCase` is not modelled, so non-ASCII capitals stay as they are.
- ROICalculator.Compute: uses exact rational arithmetic where JavaScript uses doubles. For ROI, `(net / cost) * 100` is rounded as the exact 100·net/cost. A tie that double rounding moves across .5 is not reproduced.
- ROICalculator.Compute: models integer slider values only. Fractional staff counts, call volumes and wages are outside the sliders and are not modelled.
- Testimonials.Stars: takes an integer rating; a fractional rating is not modelled (every testimonial has rating 5).
- Contact.DemoRequest: the Submit button on step 3 is not modelled beyond the form state, because submitting only logs the form.
