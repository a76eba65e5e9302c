/**
 * The model picker: the selected model and its label, the grouping of the
 * models by provider, the order of the provider sections and their labels,
 * and the open/closed state of the list.
 */
module ModelSelector {
  import opened Wrappers
  import opened Strings
  import Seqs

  datatype Model = Model(id: string, name: string, provider: string, supportsVision: bool)

  /** `models.find(m => m.id === id)`: the first model with that identifier. */
  function FindModel(models: seq<Model>, id: string): (r: Option<Model>)
    ensures r.None? <==> forall i :: 0 <= i < |models| ==> models[i].id != id
    ensures r.Some? ==> exists i :: 0 <= i < |models| && models[i] == r.value
                                    && r.value.id == id && forall j :: 0 <= j < i ==> models[j].id != id
  {
    if models == [] then None
    else if models[0].id == id then Some(models[0])
    else
      var r := FindModel(models[1..], id);
      if r.Some? then
        ghost var i :| 0 <= i < |models[1..]| && models[1..][i] == r.value
                       && r.value.id == id && forall j :: 0 <= j < i ==> models[1..][j].id != id;
        assert models[i + 1] == r.value;
        assert forall j :: 0 <= j < i + 1 ==> models[j].id != id by {
          forall j | 0 <= j < i + 1 ensures models[j].id != id {
            if j > 0 {
              assert models[j] == models[1..][j - 1];
            }
          }
        }
        r
      else r
  }

  /** The button's label: the selected model's name, or `Select model` when none matches or the name is empty. */
  function SelectedLabel(models: seq<Model>, selectedModel: string): (shown: string)
    ensures FindModel(models, selectedModel).None? ==> shown == "Select model"
    ensures FindModel(models, selectedModel).Some? ==>
              shown == OrFallback(FindModel(models, selectedModel).value.name, "Select model")
    ensures shown != ""
  {
    var m := FindModel(models, selectedModel);
    if m.Some? && m.value.name != "" then m.value.name else "Select model"
  }

  /** The models of one provider, in input order. */
  function OfProvider(models: seq<Model>, provider: string): seq<Model>
  {
    Seqs.Filter(models, (m: Model) => m.provider == provider)
  }

  lemma OfProviderAppend(models: seq<Model>, m: Model, provider: string)
    ensures OfProvider(models + [m], provider) == OfProvider(models, provider) + (if m.provider == provider then [m] else [])
  {
    Seqs.FilterAppend(models, [m], (x: Model) => x.provider == provider);
    assert [m][1..] == [];
  }

  /** The providers, each once, in order of first appearance: the key order of the grouping object. */
  function ProvidersInOrder(models: seq<Model>): (ps: seq<string>)
    ensures Seqs.NoDuplicates(ps)
    ensures forall p :: p in ps <==> exists i :: 0 <= i < |models| && models[i].provider == p
  {
    if models == [] then []
    else
      var n := |models| - 1;
      var prefix := ProvidersInOrder(models[..n]);
      assert forall i :: 0 <= i < n ==> models[..n][i] == models[i];
      prefix + (if models[n].provider in prefix then [] else [models[n].provider])
  }

  /** One more model extends the provider list by its provider, unless already listed. */
  lemma ProvidersStep(models: seq<Model>, i: nat)
    requires i < |models|
    ensures ProvidersInOrder(models[..i + 1]) == ProvidersInOrder(models[..i])
              + (if models[i].provider in ProvidersInOrder(models[..i]) then [] else [models[i].provider])
  {
    assert models[..i + 1][..i] == models[..i];
  }

  /** A provider not yet listed has no models so far. */
  lemma UnlistedHasNoModels(models: seq<Model>, p: string)
    requires p !in ProvidersInOrder(models)
    ensures OfProvider(models, p) == []
  {
    forall x | x in models
      ensures x.provider != p
    {
      var k :| 0 <= k < |models| && models[k] == x;
    }
    Seqs.FilterNoneKept(models, (m: Model) => m.provider == p);
  }

  /** The `reduce` callback: the model joins its provider's group, created when missing. */
  function AddToGroup(groups: map<string, seq<Model>>, m: Model): (r: map<string, seq<Model>>)
    ensures r.Keys == groups.Keys + {m.provider}
    ensures r[m.provider] == (if m.provider in groups then groups[m.provider] else []) + [m]
    ensures forall p :: p in groups && p != m.provider ==> r[p] == groups[p]
  {
    if m.provider in groups then groups[m.provider := groups[m.provider] + [m]]
    else groups[m.provider := [m]]
  }

  /** The groups of a prefix, one step of the `reduce` later, are the groups of the longer prefix. */
  lemma AddToGroupKeeps(models: seq<Model>, i: nat, groups: map<string, seq<Model>>)
    requires i < |models|
    requires forall p :: p in groups <==> p in ProvidersInOrder(models[..i])
    requires forall p :: p in groups ==> groups[p] == OfProvider(models[..i], p)
    ensures forall p :: p in AddToGroup(groups, models[i]) <==> p in ProvidersInOrder(models[..i + 1])
    ensures forall p :: p in AddToGroup(groups, models[i]) ==> AddToGroup(groups, models[i])[p] == OfProvider(models[..i + 1], p)
  {
    var m := models[i];
    var next := AddToGroup(groups, m);
    Seqs.TakeOneMore(models, i);
    ProvidersStep(models, i);
    if m.provider !in groups {
      UnlistedHasNoModels(models[..i], m.provider);
    }
    forall p | p in next
      ensures next[p] == OfProvider(models[..i + 1], p)
    {
      OfProviderAppend(models[..i], m, p);
    }
  }

  /**
   * The grouping `reduce`: walks the models once, creating a provider's
   * group the first time the provider is met and appending each model to
   * its provider's group.
   */
  method GroupByProvider(models: seq<Model>) returns (providers: seq<string>, groups: map<string, seq<Model>>)
    ensures providers == ProvidersInOrder(models)
    ensures forall p :: p in groups <==> p in providers
    ensures forall p :: p in groups ==> groups[p] == OfProvider(models, p)
  {
    providers := [];
    groups := map[];
    var i := 0;
    while i < |models|
      invariant 0 <= i <= |models|
      invariant providers == ProvidersInOrder(models[..i])
      invariant forall p :: p in groups <==> p in providers
      invariant forall p :: p in groups ==> groups[p] == OfProvider(models[..i], p)
    {
      var m := models[i];
      AddToGroupKeeps(models, i, groups);
      ProvidersStep(models, i);
      if m.provider !in groups {
        providers := providers + [m.provider];
      }
      groups := AddToGroup(groups, m);
      i := i + 1;
    }
    assert models[..i] == models;
  }

  /** Every model sits in its own provider's group and in no other. */
  lemma EachModelInOneGroup(models: seq<Model>, k: nat, p: string)
    requires k < |models|
    ensures models[k] in OfProvider(models, p) <==> models[k].provider == p
  {
  }

  const ProviderOrder: seq<string> := ["openai", "anthropic", "xai"]

  /** `providerOrder.indexOf(p)`: −1 for a provider not in the list. */
  function Rank(p: string): (r: int)
    ensures -1 <= r < |ProviderOrder|
    ensures r >= 0 ==> ProviderOrder[r] == p
    ensures r == -1 <==> p !in ProviderOrder
  {
    if p == "openai" then 0 else if p == "anthropic" then 1 else if p == "xai" then 2 else -1
  }

  /** The elements of one rank, in their original order. */
  function OfRank<T>(xs: seq<T>, rank: T -> int, r: int): seq<T>
  {
    if xs == [] then []
    else (if rank(xs[0]) == r then [xs[0]] else []) + OfRank(xs[1..], rank, r)
  }

  /** Every element taken for a rank has that rank. */
  lemma {:induction false} OfRankHasRank<T>(xs: seq<T>, rank: T -> int, r: int)
    ensures forall i :: 0 <= i < |OfRank(xs, rank, r)| ==> rank(OfRank(xs, rank, r)[i]) == r
  {
    if xs != [] {
      OfRankHasRank(xs[1..], rank, r);
      var head := if rank(xs[0]) == r then [xs[0]] else [];
      forall i | 0 <= i < |OfRank(xs, rank, r)| ensures rank(OfRank(xs, rank, r)[i]) == r {
        if i >= |head| {
          assert OfRank(xs, rank, r)[i] == OfRank(xs[1..], rank, r)[i - |head|];
        }
      }
    }
  }

  /**
   * `Array.prototype.sort` with a comparator subtracting ranks between -1
   * and 2: a stable sort, so the elements of each rank keep their order.
   */
  function SortByRank<T>(xs: seq<T>, rank: T -> int): seq<T>
  {
    OfRank(xs, rank, -1) + OfRank(xs, rank, 0) + OfRank(xs, rank, 1) + OfRank(xs, rank, 2)
  }

  /**
   * The section order: unknown providers first in their key order, then
   * openai, anthropic and xai.
   */
  function SortProviders(ps: seq<string>): seq<string>
  {
    SortByRank(ps, Rank)
  }

  lemma SortByRankOrdered<T>(xs: seq<T>, rank: T -> int)
    ensures var s := SortByRank(xs, rank);
            forall i, j :: 0 <= i < j < |s| ==> rank(s[i]) <= rank(s[j])
  {
    var a, b, c, d := OfRank(xs, rank, -1), OfRank(xs, rank, 0), OfRank(xs, rank, 1), OfRank(xs, rank, 2);
    OfRankHasRank(xs, rank, -1);
    OfRankHasRank(xs, rank, 0);
    OfRankHasRank(xs, rank, 1);
    OfRankHasRank(xs, rank, 2);
    var s := SortByRank(xs, rank);
    forall i | 0 <= i < |s|
      ensures rank(s[i]) == (if i < |a| then -1 else if i < |a| + |b| then 0 else if i < |a| + |b| + |c| then 1 else 2)
    {
      if i < |a| {
        assert s[i] == a[i];
      } else if i < |a| + |b| {
        assert s[i] == b[i - |a|];
      } else if i < |a| + |b| + |c| {
        assert s[i] == c[i - |a| - |b|];
      } else {
        assert s[i] == d[i - |a| - |b| - |c|];
      }
    }
  }

  /** The sections are ordered by rank. */
  lemma SortedByRank(ps: seq<string>)
    ensures var s := SortProviders(ps);
            forall i, j :: 0 <= i < j < |s| ==> Rank(s[i]) <= Rank(s[j])
  {
    SortByRankOrdered(ps, Rank);
  }

  /** Taking one rank from a non-empty list: the head when it has that rank, then the rest. */
  lemma OfRankStep<T>(xs: seq<T>, rank: T -> int, r: int)
    requires xs != []
    ensures rank(xs[0]) == r ==> multiset(OfRank(xs, rank, r)) == multiset{xs[0]} + multiset(OfRank(xs[1..], rank, r))
    ensures rank(xs[0]) != r ==> multiset(OfRank(xs, rank, r)) == multiset(OfRank(xs[1..], rank, r))
  {
  }

  /** An element added to any one of four parts is added to their union. */
  lemma AddToOnePart<T>(e: multiset<T>, a: multiset<T>, b: multiset<T>, c: multiset<T>, d: multiset<T>)
    ensures (e + a) + b + c + d == e + (a + b + c + d)
    ensures a + (e + b) + c + d == e + (a + b + c + d)
    ensures a + b + (e + c) + d == e + (a + b + c + d)
    ensures a + b + c + (e + d) == e + (a + b + c + d)
  {
  }

  /** With ranks between -1 and 2, the stable sort only reorders. */
  lemma {:induction false} SortByRankPermutes<T>(xs: seq<T>, rank: T -> int)
    requires forall x :: -1 <= rank(x) <= 2
    ensures multiset(SortByRank(xs, rank)) == multiset(xs)
  {
    if xs != [] {
      var x, tail := xs[0], xs[1..];
      SortByRankPermutes(tail, rank);
      OfRankStep(xs, rank, -1);
      OfRankStep(xs, rank, 0);
      OfRankStep(xs, rank, 1);
      OfRankStep(xs, rank, 2);
      ghost var a, b, c, d := multiset(OfRank(tail, rank, -1)), multiset(OfRank(tail, rank, 0)),
                              multiset(OfRank(tail, rank, 1)), multiset(OfRank(tail, rank, 2));
      ghost var e := multiset{x};
      assert multiset(SortByRank(tail, rank)) == a + b + c + d;
      ghost var sorted := multiset(SortByRank(xs, rank));
      assert sorted == multiset(OfRank(xs, rank, -1)) + multiset(OfRank(xs, rank, 0))
                       + multiset(OfRank(xs, rank, 1)) + multiset(OfRank(xs, rank, 2));
      if rank(x) == -1 {
        assert sorted == (e + a) + b + c + d;
      } else if rank(x) == 0 {
        assert sorted == a + (e + b) + c + d;
      } else if rank(x) == 1 {
        assert sorted == a + b + (e + c) + d;
      } else {
        assert sorted == a + b + c + (e + d);
      }
      AddToOnePart(e, a, b, c, d);
      Seqs.MultisetCons(xs);
    }
  }

  /** Sorting only reorders: the same providers, each as often. */
  lemma SortPermutes(ps: seq<string>)
    ensures multiset(SortProviders(ps)) == multiset(ps)
  {
    SortByRankPermutes(ps, Rank);
  }

  /** `provider.charAt(0).toUpperCase() + provider.slice(1)`. */
  function ProviderLabel(provider: string): (shown: string)
    ensures |shown| == |provider|
    ensures provider != "" ==> shown[0] == UpperChar(provider[0]) && shown[1..] == provider[1..]
  {
    if provider == "" then "" else [UpperChar(provider[0])] + provider[1..]
  }

  /** The label differs from the provider name only in the case of its first letter. */
  lemma LabelSameIgnoringCase(provider: string)
    ensures ToLower(ProviderLabel(provider)) == ToLower(provider)
  {
    var l := ProviderLabel(provider);
    forall k | 0 <= k < |provider| ensures ToLower(l)[k] == ToLower(provider)[k] {
      if k > 0 {
        assert l[k] == provider[k];
      }
    }
  }

  /** The toggle button: ignored while disabled. */
  function ToggleOpen(isOpen: bool, disabled: bool): (open: bool)
    ensures disabled ==> open == isOpen
    ensures !disabled ==> open == !isOpen
  {
    if disabled then isOpen else !isOpen
  }

  /** Choosing a model: its identifier goes to `onSelect` and the list closes. */
  datatype Choice = Choice(selected: string, isOpen: bool)

  function Choose(m: Model): (c: Choice)
    ensures c.selected == m.id && !c.isOpen
  {
    Choice(m.id, false)
  }
}
