/**
 * The article editor state the create and edit forms share: the tag list,
 * the tag being typed and the server error, with the add, remove and clear
 * handlers that replace them.
 */
module ArticleForm {
  import opened JsValues
  import opened Domain
  import opened BlogApi

  /** addTag accepts the input when its trimmed text is non-empty and not yet in the list. */
  predicate Accepts(tags: seq<string>, input: string) {
    Trim(input) != "" && Trim(input) !in tags
  }

  /** The list after addTag: the trimmed input appended if accepted, otherwise the same list. */
  function WithTag(tags: seq<string>, input: string): (r: seq<string>)
    ensures Accepts(tags, input) ==> r == tags + [Trim(input)]
    ensures !Accepts(tags, input) ==> r == tags
    ensures NoDuplicates(tags) ==> NoDuplicates(r)
  {
    var t := Trim(input);
    if t != "" && t !in tags then tags + [t] else tags
  }

  /** `a` is `b` with some elements left out, the others in their order. */
  predicate IsSubsequence<T(==)>(a: seq<T>, b: seq<T>) {
    if a == [] then true
    else if b == [] then false
    else if a[0] == b[0] then IsSubsequence(a[1..], b[1..])
    else IsSubsequence(a, b[1..])
  }

  /** The list after removeTag: every entry equal to `t` filtered out, the rest in order. */
  function WithoutTag(tags: seq<string>, t: string): (r: seq<string>)
    ensures forall x :: x in r <==> x in tags && x != t
    ensures IsSubsequence(r, tags)
    ensures t !in tags ==> r == tags
    ensures NoDuplicates(tags) ==> NoDuplicates(r)
  {
    if tags == [] then []
    else
      var rest := WithoutTag(tags[1..], t);
      assert forall x :: x in tags <==> x == tags[0] || x in tags[1..];
      if tags[0] == t then
        assert rest != [] ==> rest[0] != tags[0];
        rest
      else
        var r := [tags[0]] + rest;
        assert r[1..] == rest;
        assert NoDuplicates(tags) ==> tags[0] !in rest;
        r
  }

  /** Removing keeps every other entry as often as it occurred, duplicates included, and drops every copy of `t`. */
  lemma {:induction false} WithoutTagCounts(tags: seq<string>, t: string)
    ensures multiset(WithoutTag(tags, t)) == multiset(tags)[t := 0]
  {
    if tags != [] {
      WithoutTagCounts(tags[1..], t);
      assert tags == [tags[0]] + tags[1..];
    }
  }

  /** Removing a tag that was just added restores the list. */
  lemma AddThenRemove(tags: seq<string>, input: string)
    requires Accepts(tags, input)
    ensures WithoutTag(WithTag(tags, input), Trim(input)) == tags
  {
    RemoveAppended(tags, Trim(input));
  }

  lemma {:induction false} RemoveAppended(tags: seq<string>, t: string)
    requires t !in tags
    ensures WithoutTag(tags + [t], t) == tags
  {
    if tags == [] {
      assert [t][1..] == [];
    } else {
      assert (tags + [t])[1..] == tags[1..] + [t];
      RemoveAppended(tags[1..], t);
    }
  }

  /** Every tag is distinct, non-empty and already trimmed. */
  predicate CleanTags(tags: seq<string>) {
    NoDuplicates(tags) && forall i :: 0 <= i < |tags| ==> tags[i] != "" && Trim(tags[i]) == tags[i]
  }

  /** Adding keeps a clean list clean. */
  lemma CleanTagsAdd(tags: seq<string>, input: string)
    requires CleanTags(tags)
    ensures CleanTags(WithTag(tags, input))
  {
    TrimIdempotent(input);
  }

  /** Removing keeps a clean list clean. */
  lemma CleanTagsRemove(tags: seq<string>, t: string)
    requires CleanTags(tags)
    ensures CleanTags(WithoutTag(tags, t))
  {
    var r := WithoutTag(tags, t);
    forall i | 0 <= i < |r| ensures r[i] != "" && Trim(r[i]) == r[i] {
      assert r[i] in tags;
    }
  }

  /** The form's registered fields. */
  datatype ArticleValues = ArticleValues(title: string, shortDesc: string, body: string)

  /** The article a submission sends: the form's fields and the editor's tags, shortDesc as description. */
  function Payload(v: ArticleValues, tags: seq<string>): ArticleFields {
    ArticleFields(v.title, v.shortDesc, v.body, tags)
  }

  /** The server error shown above the form: the server's `errors` object or a text. */
  datatype ServerError = ErrorsObject(errors: ServerErrors) | ErrorText(text: string)

  /** The editor state of the create and edit forms. */
  class FormState {
    var tags: seq<string>
    var currentTag: string
    var serverError: Option<ServerError>

    /** A form as first rendered: no tags, empty input, no error. */
    constructor ()
      ensures tags == [] && currentTag == "" && serverError == None
    {
      tags := [];
      currentTag := "";
      serverError := None;
    }

    /** The tag input's onChange. */
    method SetCurrentTag(value: string)
      modifies this
      ensures currentTag == value
      ensures tags == old(tags) && serverError == old(serverError)
    {
      currentTag := value;
    }

    /** addTag: append the trimmed input if accepted and then clear the input; otherwise change nothing. */
    method AddTag()
      modifies this
      ensures tags == WithTag(old(tags), old(currentTag))
      ensures currentTag == if Accepts(old(tags), old(currentTag)) then "" else old(currentTag)
      ensures serverError == old(serverError)
    {
      var trimmed := Trim(currentTag);
      if trimmed != "" && trimmed !in tags {
        tags := tags + [trimmed];
        currentTag := "";
      }
    }

    /** removeTag: filter out every entry equal to the given tag. */
    method RemoveTag(tagToRemove: string)
      modifies this
      ensures tags == WithoutTag(old(tags), tagToRemove)
      ensures currentTag == old(currentTag) && serverError == old(serverError)
    {
      tags := WithoutTag(tags, tagToRemove);
    }

    /** clearForm: empties the tag input only. */
    method ClearForm()
      modifies this
      ensures currentTag == ""
      ensures tags == old(tags) && serverError == old(serverError)
    {
      currentTag := "";
    }
  }
}
