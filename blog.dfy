/** The resources page: a search box and two drop-downs (topic and content type)
    narrow the list of posts; each card shows an icon for its content type and
    at most three tags. */
module Blog {
  import opened Sequences
  import opened Text

  /** One post record; `kind` is the post's `type` field. */
  datatype Post = Post(
    id: nat,
    title: string,
    excerpt: string,
    category: string,
    kind: string,
    author: string,
    tags: seq<string>)

  /** The value of both drop-downs that imposes no constraint. */
  const All: string := "all"

  /** The six posts the page lists, in page order. */
  const BlogPosts: seq<Post> := [
    Post(1, "Reducing Emergency Department Wait Times with AI-Powered Triage",
      "Learn how three major hospitals reduced ED wait times by 40% using intelligent triage systems.",
      "clinical", "article", "Michael Rodriguez, RN",
      ["Emergency Medicine", "AI Triage", "Patient Flow"]),
    Post(2, "HIPAA Compliance in the Age of AI: A Complete Guide",
      "Navigate the complex landscape of AI implementation while maintaining strict HIPAA compliance.",
      "compliance", "whitepaper", "Lisa Thompson, JD",
      ["HIPAA", "Compliance", "Healthcare AI"]),
    Post(3, "ROI Calculator: Clinical Documentation Automation",
      "Calculate the potential savings from automating clinical documentation in your organization.",
      "efficiency", "case-study", "David Park, MBA",
      ["ROI", "Documentation", "Cost Savings"]),
    Post(4, "Leading Change: Implementing AI in Traditional Healthcare Settings",
      "Change management strategies for successful AI adoption from healthcare transformation experts.",
      "leadership", "webinar", "Dr. Jennifer Walsh",
      ["Change Management", "Leadership", "AI Adoption"]),
    Post(5, "The Healthcare AI Podcast: Episode 12 - Nurse Burnout Solutions",
      "Discussion with nursing leaders about reducing burnout through intelligent workflow automation.",
      "clinical", "podcast", "Anatomia Healthcare Team",
      ["Nursing", "Burnout", "Workflow Automation"]),
    Post(6, "Security Best Practices for Healthcare AI Implementations",
      "Essential security measures every healthcare organization should implement when deploying AI solutions.",
      "compliance", "article", "Robert Kim, CISSP",
      ["Security", "Best Practices", "Implementation"])
  ]

  /** Case-insensitive `haystack.includes(term)`: the empty term matches every
      text, and a term longer than the text matches nothing. */
  predicate MatchesText(haystack: string, term: string): (m: bool)
    ensures term == "" ==> m
    ensures m ==> |term| <= |haystack|
  {
    Includes(Lower(haystack), Lower(term))
  }

  /** The search box matches the title, the excerpt, or some tag: an empty box
      matches every post, and a term longer than all of them matches none. */
  predicate MatchesSearch(p: Post, term: string): (m: bool)
    ensures term == "" ==> m
    ensures m ==> || |term| <= |p.title| || |term| <= |p.excerpt|
                  || exists k :: 0 <= k < |p.tags| && |term| <= |p.tags[k]|
  {
    || MatchesText(p.title, term)
    || MatchesText(p.excerpt, term)
    || exists k :: 0 <= k < |p.tags| && MatchesText(p.tags[k], term)
  }

  /** A drop-down passes a value when it is set to "all" or to exactly that value. */
  predicate MatchesSelection(selected: string, value: string)
  {
    selected == All || value == selected
  }

  /** A post is listed when the search, the topic and the content type all match:
      with an empty search and both drop-downs on "all" every post is, and a topic
      or type other than the post's own hides it. */
  predicate KeepPost(p: Post, term: string, category: string, kind: string): (keep: bool)
    ensures term == "" && category == All && kind == All ==> keep
    ensures category != All && p.category != category ==> !keep
    ensures kind != All && p.kind != kind ==> !keep
  {
    MatchesSearch(p, term) && MatchesSelection(category, p.category) && MatchesSelection(kind, p.kind)
  }

  /** `KeepPost` as the callback handed to `filter`. */
  function KeepPostFn(term: string, category: string, kind: string): Post -> bool
  {
    p => KeepPost(p, term, category, kind)
  }

  /** `filteredPosts`. */
  function FilteredPosts(posts: seq<Post>, term: string, category: string, kind: string): (r: seq<Post>)
    ensures |r| <= |posts|
    ensures forall i :: 0 <= i < |r| ==> KeepPost(r[i], term, category, kind)
  {
    Filter(posts, KeepPostFn(term, category, kind))
  }

  /** The filtered list keeps the original order, and a post is listed exactly
      when it is in the input and the search, topic and type all match. */
  lemma FilteredPostsExact(posts: seq<Post>, term: string, category: string, kind: string, p: Post)
    ensures IsSubsequence(FilteredPosts(posts, term, category, kind), posts)
    ensures p in FilteredPosts(posts, term, category, kind)
            <==> p in posts && MatchesSearch(p, term)
                 && (category == All || p.category == category)
                 && (kind == All || p.kind == kind)
  {
    FilterIsSubsequence(posts, KeepPostFn(term, category, kind));
    FilterMembership(posts, KeepPostFn(term, category, kind), p);
  }

  /** The lower-cased `term` occurs somewhere in the lower-cased `haystack`. */
  ghost predicate OccursIgnoringCase(haystack: string, term: string)
  {
    exists i :: OccursAt(Lower(haystack), Lower(term), i)
  }

  /** The case-insensitive `includes` is exactly a case-insensitive substring test. */
  lemma MatchesTextIsSubstring(haystack: string, term: string)
    ensures MatchesText(haystack, term) <==> OccursIgnoringCase(haystack, term)
  {
    IncludesIffOccurs(Lower(haystack), Lower(term));
  }

  /** The search matches exactly when the lower-cased term occurs in the
      lower-cased title, the excerpt or some tag. */
  lemma SearchIsSubstring(p: Post, term: string)
    ensures MatchesSearch(p, term)
            <==> (|| OccursIgnoringCase(p.title, term)
                  || OccursIgnoringCase(p.excerpt, term)
                  || exists k :: 0 <= k < |p.tags| && OccursIgnoringCase(p.tags[k], term))
  {
    MatchesTextIsSubstring(p.title, term);
    MatchesTextIsSubstring(p.excerpt, term);
    forall k | 0 <= k < |p.tags| {
      MatchesTextIsSubstring(p.tags[k], term);
    }
  }

  /** An empty search with both drop-downs on "all" lists every post. */
  lemma EmptySearchListsAll(posts: seq<Post>)
    ensures FilteredPosts(posts, "", All, All) == posts
  {
    forall i | 0 <= i < |posts| ensures KeepPostFn("", All, All)(posts[i]) {
      EmptyIncluded(Lower(posts[i].title));
    }
    FilterKeepsAll(posts, KeepPostFn("", All, All));
  }

  /** Choosing a specific topic or type instead of "all" never lists more posts,
      and every post it lists was listed before. */
  lemma NarrowingNeverAdds(posts: seq<Post>, term: string, category: string, kind: string)
    ensures IsSubsequence(FilteredPosts(posts, term, category, kind), FilteredPosts(posts, term, All, kind))
    ensures IsSubsequence(FilteredPosts(posts, term, category, kind), FilteredPosts(posts, term, category, All))
    ensures |FilteredPosts(posts, term, category, kind)| <= |FilteredPosts(posts, term, All, kind)|
    ensures |FilteredPosts(posts, term, category, kind)| <= |FilteredPosts(posts, term, category, All)|
  {
    FilterStricter(posts, KeepPostFn(term, category, kind), KeepPostFn(term, All, kind));
    FilterStricter(posts, KeepPostFn(term, category, kind), KeepPostFn(term, category, All));
  }

  /** "N resources found": the length of the filtered list; never more than the
      posts, and all of them when nothing narrows the list. */
  function ResourcesFound(posts: seq<Post>, term: string, category: string, kind: string): (n: nat)
    ensures n <= |posts|
    ensures term == "" && category == All && kind == All ==> n == |posts|
  {
    EmptySearchListsAll(posts);
    |FilteredPosts(posts, term, category, kind)|
  }

  /** The content-type icons. */
  datatype Icon = FileText | BookOpen | Video | Mic | TrendingUp

  /** `getContentTypeIcon`. */
  function ContentTypeIcon(kind: string): (icon: Icon)
    ensures icon == BookOpen <==> kind == "whitepaper"
    ensures icon == Video <==> kind == "webinar"
    ensures icon == Mic <==> kind == "podcast"
    ensures icon == TrendingUp <==> kind == "case-study"
    ensures icon == FileText <==> kind !in {"whitepaper", "webinar", "podcast", "case-study"}
  {
    match kind
    case "article" => FileText
    case "whitepaper" => BookOpen
    case "webinar" => Video
    case "podcast" => Mic
    case "case-study" => TrendingUp
    case _ => FileText
  }

  /** The most tags a card shows. */
  const MaxTagsShown: nat := 3

  /** `post.tags.slice(0, 3)`: the first three tags, or all of them if there are fewer. */
  function VisibleTags(p: Post): (shown: seq<string>)
    ensures |shown| <= MaxTagsShown && shown <= p.tags
    ensures |p.tags| <= MaxTagsShown ==> shown == p.tags
    ensures |p.tags| >= MaxTagsShown ==> |shown| == MaxTagsShown
  {
    Prefix(p.tags, MaxTagsShown)
  }
}
