/** The static content lookups behind the help centre and the blog: find an
    article, category or post by slug, list a category's articles, and list
    every slug for the pages built ahead of time. The article collections
    are parameters; their prose is not part of the model. */
module Content {
  import opened Wrappers
  import opened Listing

  datatype HelpArticle = HelpArticle(
    slug: string,
    title: string,
    description: string,
    category: string,
    categorySlug: string,
    content: string,
    relatedArticles: Option<seq<string>>)

  datatype HelpCategory = HelpCategory(slug: string, title: string, description: string, icon: string)

  datatype BlogPost = BlogPost(
    slug: string,
    title: string,
    excerpt: string,
    category: string,
    author: string,
    authorRole: Option<string>,
    date: string,
    readTime: string,
    featured: bool,
    content: string)

  /** No two entries share a slug. */
  predicate DistinctSlugs<T>(s: seq<T>, slug: T -> string) {
    forall i, j :: 0 <= i < j < |s| ==> slug(s[i]) != slug(s[j])
  }

  /** `getHelpArticle`: the first article with the slug, or `undefined`. */
  function GetHelpArticle(articles: seq<HelpArticle>, slug: string): (r: Option<HelpArticle>)
    ensures r.None? <==> forall i :: 0 <= i < |articles| ==> articles[i].slug != slug
    ensures r.Some? ==> r.value in articles && r.value.slug == slug
    ensures r.Some? ==> exists i :: 0 <= i < |articles| && articles[i] == r.value &&
                                    forall j :: 0 <= j < i ==> articles[j].slug != slug
  {
    Find(articles, (a: HelpArticle) => a.slug == slug)
  }

  /** `getArticlesByCategory`: exactly the articles of the category, each as
      often as it occurs, in their original order. */
  function GetArticlesByCategory(articles: seq<HelpArticle>, categorySlug: string): (r: seq<HelpArticle>)
    ensures forall a :: a in r <==> a in articles && a.categorySlug == categorySlug
    ensures forall a :: multiset(r)[a] == if a.categorySlug == categorySlug then multiset(articles)[a] else 0
  {
    Filter(articles, (a: HelpArticle) => a.categorySlug == categorySlug)
  }

  /** Listing a category keeps the articles' order: listing a collection
      made of two parts lists the first part's articles first. */
  lemma CategoryListingKeepsOrder(first: seq<HelpArticle>, second: seq<HelpArticle>, categorySlug: string)
    ensures GetArticlesByCategory(first + second, categorySlug)
         == GetArticlesByCategory(first, categorySlug) + GetArticlesByCategory(second, categorySlug)
  {
    FilterConcat(first, second, (a: HelpArticle) => a.categorySlug == categorySlug);
  }

  /** `getAllHelpSlugs`: one slug per article, in the articles' order. */
  function GetAllHelpSlugs(articles: seq<HelpArticle>): (r: seq<string>)
    ensures |r| == |articles|
    ensures forall i :: 0 <= i < |articles| ==> r[i] == articles[i].slug
  {
    MapSeq(articles, (a: HelpArticle) => a.slug)
  }

  /** `getHelpCategory`: the first category with the slug, or `undefined`. */
  function GetHelpCategory(categories: seq<HelpCategory>, slug: string): (r: Option<HelpCategory>)
    ensures r.None? <==> forall i :: 0 <= i < |categories| ==> categories[i].slug != slug
    ensures r.Some? ==> r.value in categories && r.value.slug == slug
    ensures r.Some? ==> exists i :: 0 <= i < |categories| && categories[i] == r.value &&
                                    forall j :: 0 <= j < i ==> categories[j].slug != slug
  {
    Find(categories, (c: HelpCategory) => c.slug == slug)
  }

  /** Every listed help slug opens an article; with distinct slugs it opens
      the very article it was listed for. */
  lemma HelpSlugsResolve(articles: seq<HelpArticle>, i: nat)
    requires i < |articles|
    ensures GetHelpArticle(articles, GetAllHelpSlugs(articles)[i]).Some?
    ensures DistinctSlugs(articles, (a: HelpArticle) => a.slug) ==>
      GetHelpArticle(articles, GetAllHelpSlugs(articles)[i]) == Some(articles[i])
  {
    var slug := GetAllHelpSlugs(articles)[i];
    assert articles[i].slug == slug;
  }

  /** `getBlogPost`: the first post with the slug, or `undefined`. */
  function GetBlogPost(posts: seq<BlogPost>, slug: string): (r: Option<BlogPost>)
    ensures r.None? <==> forall i :: 0 <= i < |posts| ==> posts[i].slug != slug
    ensures r.Some? ==> r.value in posts && r.value.slug == slug
    ensures r.Some? ==> exists i :: 0 <= i < |posts| && posts[i] == r.value &&
                                    forall j :: 0 <= j < i ==> posts[j].slug != slug
  {
    Find(posts, (p: BlogPost) => p.slug == slug)
  }

  /** `getAllBlogSlugs`: one slug per post, in the posts' order. */
  function GetAllBlogSlugs(posts: seq<BlogPost>): (r: seq<string>)
    ensures |r| == |posts|
    ensures forall i :: 0 <= i < |posts| ==> r[i] == posts[i].slug
  {
    MapSeq(posts, (p: BlogPost) => p.slug)
  }

  /** Every listed blog slug opens a post; with distinct slugs it opens the
      very post it was listed for. */
  lemma BlogSlugsResolve(posts: seq<BlogPost>, i: nat)
    requires i < |posts|
    ensures GetBlogPost(posts, GetAllBlogSlugs(posts)[i]).Some?
    ensures DistinctSlugs(posts, (p: BlogPost) => p.slug) ==>
      GetBlogPost(posts, GetAllBlogSlugs(posts)[i]) == Some(posts[i])
  {
    var slug := GetAllBlogSlugs(posts)[i];
    assert posts[i].slug == slug;
  }

  /** A slug that is not listed opens nothing: the blog's pages are exactly
      the listed slugs. */
  lemma UnlistedBlogSlugIsNotFound(posts: seq<BlogPost>, slug: string)
    ensures GetBlogPost(posts, slug).Some? <==> slug in GetAllBlogSlugs(posts)
  {
    var slugs := GetAllBlogSlugs(posts);
    if slug in slugs {
      var i :| 0 <= i < |slugs| && slugs[i] == slug;
      assert posts[i].slug == slug;
    }
  }
}
