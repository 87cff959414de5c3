/** The records the workflow store declares and the resource routes serve:
    documents, primary categories, tag dimensions and tags. */
module Entities {
  import opened Wrappers

  datatype DocumentStatus = Pending | Categorizing | Completed

  /** The string the source stores in `status`. */
  function StatusName(st: DocumentStatus): string
  {
    match st
    case Pending => "pending"
    case Categorizing => "categorizing"
    case Completed => "completed"
  }

  datatype Document = Document(
    id: string,
    title: string,
    content: string,
    summary: string,
    createdAt: string,
    authorId: string,
    status: DocumentStatus)

  datatype UsageAnalytics = UsageAnalytics(totalSelections: int, recentActivity: int)

  datatype ValueDistribution = ValueDistribution(highValue: int, mediumValue: int, standardValue: int)

  datatype Category = Category(
    id: string,
    name: string,
    description: string,
    examples: seq<string>,
    isHighValue: bool,
    impact: string,
    detailedDescription: Option<string>,
    processingStrategy: Option<string>,
    businessValueClassification: Option<string>,
    usageAnalytics: Option<UsageAnalytics>,
    valueDistribution: Option<ValueDistribution>)

  datatype Tag = Tag(
    id: string,
    name: string,
    description: string,
    icon: Option<string>,
    riskLevel: Option<int>)

  datatype TagDimension = TagDimension(
    id: string,
    name: string,
    description: string,
    tags: seq<Tag>,
    multiSelect: bool,
    required: bool)
}
